/**
 * The statements `tip_SQL.py` parses when run as a script, and inputs its
 * grammar refuses, written out as text: for each, the tokens `sql_lex`
 * yields for it.
 */
module SqlExampleTexts {
  import opened Tip
  import opened SqlLexer
  import opened SqlLexerFacts
  import opened SqlGrammar

  /** `s` is `lead`, then the tokens `ts` written out with `gaps` after each. */
  ghost predicate Written(s: string, lead: string, ts: seq<SqlToken>, gaps: seq<string>) {
    IsBlank(lead) && Separable(ts, gaps) && s == lead + Render(ts, gaps)
  }

  lemma {:induction false} LexWritten(s: string, lead: string, ts: seq<SqlToken>, gaps: seq<string>)
    requires Written(s, lead, ts, gaps)
    ensures Lex(s) == ts + [Token(End, "")]
  {
    LexRenderPadded(lead, ts, gaps);
  }

  /** Writing two token runs one after the other writes their texts one after the other. */
  lemma {:induction false} RenderAppend(a: seq<SqlToken>, ga: seq<string>, b: seq<SqlToken>, gb: seq<string>)
    requires |ga| == |a| && |gb| == |b|
    ensures Render(a + b, ga + gb) == Render(a, ga) + Render(b, gb)
    decreases |a|
  {
    if |a| > 0 {
      assert (a + b)[1..] == a[1..] + b && (ga + gb)[1..] == ga[1..] + gb;
      RenderAppend(a[1..], ga[1..], b, gb);
    } else {
      assert a + b == b && ga + gb == gb;
    }
  }

  /** Two separable runs stay separable when the first's last run does not continue into the second. */
  lemma {:induction false} SeparableAppend(a: seq<SqlToken>, ga: seq<string>, b: seq<SqlToken>, gb: seq<string>)
    requires Separable(a, ga) && Separable(b, gb) && |a| > 0
    requires ga[|ga| - 1] == "" && |b| > 0 ==> !Glued(a[|a| - 1], b[0])
    ensures Separable(a + b, ga + gb)
  {
    var ts, gs := a + b, ga + gb;
    forall i | 0 <= i < |ts|
      ensures WellLexed(ts[i]) && ts[i].kind != End
    {
      if i < |a| {
        assert ts[i] == a[i];
      } else {
        assert ts[i] == b[i - |a|];
      }
    }
    forall i | 0 <= i < |gs|
      ensures IsBlank(gs[i])
    {
      if i < |ga| {
        assert gs[i] == ga[i];
      } else {
        assert gs[i] == gb[i - |ga|];
      }
    }
    assert gs[|a| - 1] == ga[|ga| - 1] && ts[|a| - 1] == a[|a| - 1];
    if |b| > 0 {
      assert ts[|a|] == b[0];
    }
    forall i | 0 <= i < |ts| - 1 && gs[i] == ""
      ensures !Glued(ts[i], ts[i + 1])
    {
      if i < |a| - 1 {
        assert ts[i] == a[i] && ts[i + 1] == a[i + 1] && gs[i] == ga[i];
      } else if i >= |a| {
        assert ts[i] == b[i - |a|] && ts[i + 1] == b[i - |a| + 1] && gs[i] == gb[i - |a|];
      }
    }
  }

  /** One token writes out as its text, then its gap. */
  lemma {:induction false} RenderOne(ts: seq<SqlToken>, gaps: seq<string>)
    requires |ts| == 1 && |gaps| == 1
    ensures Render(ts, gaps) == ts[0].text + gaps[0]
  {
    assert Render(ts[1..], gaps[1..]) == "";
  }

  /** Two tokens write out as their texts and gaps in turn. */
  lemma {:induction false} RenderTwo(ts: seq<SqlToken>, gaps: seq<string>)
    requires |ts| == 2 && |gaps| == 2
    ensures Render(ts, gaps) == ts[0].text + gaps[0] + (ts[1].text + gaps[1])
  {
    RenderOne(ts[1..], gaps[1..]);
  }

  /** Three tokens write out as their texts and gaps in turn. */
  lemma {:induction false} RenderThree(ts: seq<SqlToken>, gaps: seq<string>)
    requires |ts| == 3 && |gaps| == 3
    ensures Render(ts, gaps) == ts[0].text + gaps[0] + (ts[1].text + gaps[1] + (ts[2].text + gaps[2]))
  {
    RenderTwo(ts[1..], gaps[1..]);
  }

  /** Four tokens write out as their texts and gaps in turn. */
  lemma {:induction false} RenderFour(ts: seq<SqlToken>, gaps: seq<string>)
    requires |ts| == 4 && |gaps| == 4
    ensures Render(ts, gaps) == ts[0].text + gaps[0] + (ts[1].text + gaps[1] + (ts[2].text + gaps[2] + (ts[3].text + gaps[3])))
  {
    RenderThree(ts[1..], gaps[1..]);
  }

  /** Appending a separable run to written text writes the run after it. */
  lemma {:induction false} WrittenAppend(s: string, lead: string, a: seq<SqlToken>, ga: seq<string>, b: seq<SqlToken>, gb: seq<string>)
    requires Written(s, lead, a, ga) && Separable(b, gb) && |a| > 0
    requires ga[|ga| - 1] == "" && |b| > 0 ==> !Glued(a[|a| - 1], b[0])
    ensures Written(s + Render(b, gb), lead, a + b, ga + gb)
  {
    SeparableAppend(a, ga, b, gb);
    RenderAppend(a, ga, b, gb);
    assert lead + (Render(a, ga) + Render(b, gb)) == lead + Render(a, ga) + Render(b, gb);
  }

  /** A line break of the script's CREATE TABLE text, then its twelve-space indent. */
  const NL := "\n            "

  const PersonsHead: seq<SqlToken> := [Token(Create, "CREATE"), Token(Table, "TABLE"), I("Persons"), Token(LParen, "(")]
  const PersonsHeadGaps: seq<string> := [" ", " ", NL, NL]

  lemma {:induction false} PersonsHeadLexed()
    ensures forall i :: 0 <= i < |PersonsHead| ==> WellLexed(PersonsHead[i]) && PersonsHead[i].kind != End
  {
    assert Upper("CREATE") == "CREATE" && Upper("TABLE") == "TABLE" && Upper("Persons") == "PERSONS";
  }

  lemma {:induction false} PersonsHeadSeparable()
    ensures Separable(PersonsHead, PersonsHeadGaps)
  {
    PersonsHeadLexed();
    assert forall i :: 0 <= i < |PersonsHeadGaps| ==> IsBlank(PersonsHeadGaps[i]);
  }

  lemma {:induction false} PersonsHeadRendered()
    ensures Render(PersonsHead, PersonsHeadGaps) == "CREATE TABLE Persons" + NL + "(" + NL
  {
    RenderFour(PersonsHead, PersonsHeadGaps);
  }

  /** `name varchar(255),` on a line of its own. */
  function SizedLine(name: string): seq<SqlToken> {
    [I(name), I("varchar"), Token(LParen, "("), Token(Number, "255"), Token(RParen, ")"), Token(Comma, ",")]
  }

  const SizedGaps: seq<string> := [" ", "", "", "", "", NL]

  lemma {:induction false} SizedLineLexed(name: string)
    requires IsWord(name) && Upper(name) !in Keywords
    ensures forall i :: 0 <= i < |SizedLine(name)| ==> WellLexed(SizedLine(name)[i]) && SizedLine(name)[i].kind != End
  {
    assert Upper("varchar") == "VARCHAR";
  }

  lemma {:induction false} SizedLineSeparable(name: string)
    requires IsWord(name) && Upper(name) !in Keywords
    ensures Separable(SizedLine(name), SizedGaps)
  {
    SizedLineLexed(name);
    var ts := SizedLine(name);
    assert forall i :: 0 <= i < |SizedGaps| ==> IsBlank(SizedGaps[i]);
    assert !Glued(ts[1], ts[2]) && !Glued(ts[2], ts[3]) && !Glued(ts[3], ts[4]) && !Glued(ts[4], ts[5]);
  }

  lemma {:induction false} SizedLineRendered(name: string)
    ensures Render(SizedLine(name), SizedGaps) == name + " varchar(255)," + NL
  {
    var ts, gs := SizedLine(name), SizedGaps;
    assert Render(ts[6..], gs[6..]) == "";
    assert Render(ts[5..], gs[5..]) == "," + NL;
    assert Render(ts[4..], gs[4..]) == ")," + NL;
    assert Render(ts[3..], gs[3..]) == "255)," + NL;
    assert Render(ts[2..], gs[2..]) == "(255)," + NL;
    assert Render(ts[1..], gs[1..]) == "varchar(255)," + NL;
  }
  const IdLine: seq<SqlToken> := [I("PersonID"), I("int"), Token(Comma, ",")]
  const IdLineGaps: seq<string> := [" ", "", NL]

  lemma {:induction false} IdLineSeparable()
    ensures Separable(IdLine, IdLineGaps)
  {
    assert Upper("PersonID") == "PERSONID" && Upper("int") == "INT";
    assert forall i :: 0 <= i < |IdLineGaps| ==> IsBlank(IdLineGaps[i]);
  }

  lemma {:induction false} IdLineRendered()
    ensures Render(IdLine, IdLineGaps) == "PersonID int," + NL
  {
    RenderThree(IdLine, IdLineGaps);
  }

  const PersonsTail: seq<SqlToken> := [Token(RParen, ")"), Token(Semicolon, ";")]
  const PersonsTailGaps: seq<string> := ["", "\n    "]

  lemma {:induction false} PersonsTailSeparable()
    ensures Separable(PersonsTail, PersonsTailGaps)
  {
    assert forall i :: 0 <= i < |PersonsTailGaps| ==> IsBlank(PersonsTailGaps[i]);
  }

  lemma {:induction false} PersonsTailRendered()
    ensures Render(PersonsTail, PersonsTailGaps) == ");\n    "
  {
    RenderTwo(PersonsTail, PersonsTailGaps);
  }

  /**
   * The script's first statement.  Its source lines end in CR LF, which
   * Python reads as a line feed alone.
   */
  const PersonsText := NL + ("CREATE TABLE Persons" + NL + "(" + NL) + ("PersonID int," + NL)
    + ("LastName" + " varchar(255)," + NL) + ("FirstName" + " varchar(255)," + NL)
    + ("Address" + " varchar(255)," + NL) + ("City" + " varchar(255)," + NL) + ");\n    "

  const PersonsTokens := PersonsHead + IdLine + SizedLine("LastName") + SizedLine("FirstName")
    + SizedLine("Address") + SizedLine("City") + PersonsTail
  const PersonsGaps := PersonsHeadGaps + IdLineGaps + SizedGaps + SizedGaps + SizedGaps + SizedGaps + PersonsTailGaps

  lemma {:induction false} PersonsSeparable()
    ensures Separable(PersonsTokens, PersonsGaps)
  {
    PersonsHeadSeparable();
    IdLineSeparable();
    assert Upper("LastName") == "LASTNAME" && Upper("FirstName") == "FIRSTNAME";
    assert Upper("Address") == "ADDRESS" && Upper("City") == "CITY";
    SizedLineSeparable("LastName");
    SizedLineSeparable("FirstName");
    SizedLineSeparable("Address");
    SizedLineSeparable("City");
    PersonsTailSeparable();
    var a, ga := PersonsHead, PersonsHeadGaps;
    SeparableAppend(a, ga, IdLine, IdLineGaps);
    a, ga := a + IdLine, ga + IdLineGaps;
    SeparableAppend(a, ga, SizedLine("LastName"), SizedGaps);
    a, ga := a + SizedLine("LastName"), ga + SizedGaps;
    SeparableAppend(a, ga, SizedLine("FirstName"), SizedGaps);
    a, ga := a + SizedLine("FirstName"), ga + SizedGaps;
    SeparableAppend(a, ga, SizedLine("Address"), SizedGaps);
    a, ga := a + SizedLine("Address"), ga + SizedGaps;
    SeparableAppend(a, ga, SizedLine("City"), SizedGaps);
    a, ga := a + SizedLine("City"), ga + SizedGaps;
    SeparableAppend(a, ga, PersonsTail, PersonsTailGaps);
  }

  lemma {:induction false} PersonsRendered()
    ensures NL + Render(PersonsTokens, PersonsGaps) == NL + ("CREATE TABLE Persons" + NL + "(" + NL) + ("PersonID int," + NL)
        + ("LastName" + " varchar(255)," + NL) + ("FirstName" + " varchar(255)," + NL)
        + ("Address" + " varchar(255)," + NL) + ("City" + " varchar(255)," + NL) + ");\n    "
  {
    PersonsHeadRendered();
    IdLineRendered();
    SizedLineRendered("LastName");
    SizedLineRendered("FirstName");
    SizedLineRendered("Address");
    SizedLineRendered("City");
    PersonsTailRendered();
    var a, ga := PersonsHead, PersonsHeadGaps;
    RenderAppend(a, ga, IdLine, IdLineGaps);
    a, ga := a + IdLine, ga + IdLineGaps;
    RenderAppend(a, ga, SizedLine("LastName"), SizedGaps);
    a, ga := a + SizedLine("LastName"), ga + SizedGaps;
    RenderAppend(a, ga, SizedLine("FirstName"), SizedGaps);
    a, ga := a + SizedLine("FirstName"), ga + SizedGaps;
    RenderAppend(a, ga, SizedLine("Address"), SizedGaps);
    a, ga := a + SizedLine("Address"), ga + SizedGaps;
    RenderAppend(a, ga, SizedLine("City"), SizedGaps);
    a, ga := a + SizedLine("City"), ga + SizedGaps;
    RenderAppend(a, ga, PersonsTail, PersonsTailGaps);
  }

  lemma {:induction false} PersonsWritten()
    ensures Written(PersonsText, NL, PersonsTokens, PersonsGaps)
  {
    PersonsSeparable();
    PersonsRendered();
  }

  const Select0Tokens: seq<SqlToken> := [Token(Select, "SELECT"), I("firstName"), Token(Comma, ","), I("lastName")]
  const Select0Gaps: seq<string> := [" ", "", " ", " "]

  lemma {:induction false} Select0Lexed()
    ensures forall i :: 0 <= i < |Select0Tokens| ==> WellLexed(Select0Tokens[i]) && Select0Tokens[i].kind != End
  {
    assert Upper("SELECT") == "SELECT" && Upper("firstName") == "FIRSTNAME" && Upper("lastName") == "LASTNAME";
  }

  lemma {:induction false} Select0Separable()
    ensures Separable(Select0Tokens, Select0Gaps)
  {
    Select0Lexed();
    assert forall i :: 0 <= i < |Select0Gaps| ==> IsBlank(Select0Gaps[i]);
    assert forall i :: 0 <= i < |Select0Tokens| - 1 ==> Select0Gaps[i] == "" ==> !Glued(Select0Tokens[i], Select0Tokens[i + 1]);
  }

  lemma {:induction false} Select0Rendered()
    ensures Render(Select0Tokens, Select0Gaps) == "SELECT firstName, lastName "
  {
    RenderFour(Select0Tokens, Select0Gaps);
  }

  const Select1Tokens: seq<SqlToken> := [Token(From, "FROM"), I("wherever"), Token(Semicolon, ";")]
  const Select1Gaps: seq<string> := [" ", "", ""]

  lemma {:induction false} Select1Lexed()
    ensures forall i :: 0 <= i < |Select1Tokens| ==> WellLexed(Select1Tokens[i]) && Select1Tokens[i].kind != End
  {
    assert Upper("FROM") == "FROM" && Upper("wherever") == "WHEREVER";
  }

  lemma {:induction false} Select1Separable()
    ensures Separable(Select1Tokens, Select1Gaps)
  {
    Select1Lexed();
    assert forall i :: 0 <= i < |Select1Gaps| ==> IsBlank(Select1Gaps[i]);
    assert forall i :: 0 <= i < |Select1Tokens| - 1 ==> Select1Gaps[i] == "" ==> !Glued(Select1Tokens[i], Select1Tokens[i + 1]);
  }

  lemma {:induction false} Select1Rendered()
    ensures Render(Select1Tokens, Select1Gaps) == "FROM wherever;"
  {
    RenderThree(Select1Tokens, Select1Gaps);
  }

  /** The script's second statement: a column list after leading blanks. */
  const SelectText := "   SELECT firstName, lastName FROM wherever;"

  const SelectTokens := Select0Tokens + Select1Tokens
  const SelectGaps := Select0Gaps + Select1Gaps

  /** The text cut where its chunks meet. */
  lemma {:induction false} SelectPieces()
    ensures SelectText == "   " + "SELECT firstName, lastName " + "FROM wherever;"
  {
  }

  lemma {:induction false} SelectUpTo0Written()
    ensures Written("   " + "SELECT firstName, lastName ", "   ", Select0Tokens, Select0Gaps)
  {
    Select0Separable();
    Select0Rendered();
  }

  lemma {:induction false} SelectWritten()
    ensures Written(SelectText, "   ", SelectTokens, SelectGaps)
  {
    SelectUpTo0Written();
    Select1Separable();
    Select1Rendered();
    WrittenAppend("   " + "SELECT firstName, lastName ", "   ", Select0Tokens, Select0Gaps, Select1Tokens, Select1Gaps);
    SelectPieces();
  }

  const DeleteAll0Tokens: seq<SqlToken> := [Token(Delete, "DELETE"), Token(Star, "*"), Token(From, "FROM"), I("wherever")]
  const DeleteAll0Gaps: seq<string> := [" ", " ", " ", ""]

  lemma {:induction false} DeleteAll0Lexed()
    ensures forall i :: 0 <= i < |DeleteAll0Tokens| ==> WellLexed(DeleteAll0Tokens[i]) && DeleteAll0Tokens[i].kind != End
  {
    assert Upper("DELETE") == "DELETE" && Upper("FROM") == "FROM" && Upper("wherever") == "WHEREVER";
  }

  lemma {:induction false} DeleteAll0Separable()
    ensures Separable(DeleteAll0Tokens, DeleteAll0Gaps)
  {
    DeleteAll0Lexed();
    assert forall i :: 0 <= i < |DeleteAll0Gaps| ==> IsBlank(DeleteAll0Gaps[i]);
    assert forall i :: 0 <= i < |DeleteAll0Tokens| - 1 ==> DeleteAll0Gaps[i] == "" ==> !Glued(DeleteAll0Tokens[i], DeleteAll0Tokens[i + 1]);
  }

  lemma {:induction false} DeleteAll0Rendered()
    ensures Render(DeleteAll0Tokens, DeleteAll0Gaps) == "DELETE * FROM wherever"
  {
    RenderFour(DeleteAll0Tokens, DeleteAll0Gaps);
  }

  const DeleteAll1Tokens: seq<SqlToken> := [Token(Semicolon, ";")]
  const DeleteAll1Gaps: seq<string> := [""]

  lemma {:induction false} DeleteAll1Lexed()
    ensures forall i :: 0 <= i < |DeleteAll1Tokens| ==> WellLexed(DeleteAll1Tokens[i]) && DeleteAll1Tokens[i].kind != End
  {
  }

  lemma {:induction false} DeleteAll1Separable()
    ensures Separable(DeleteAll1Tokens, DeleteAll1Gaps)
  {
    DeleteAll1Lexed();
    assert forall i :: 0 <= i < |DeleteAll1Gaps| ==> IsBlank(DeleteAll1Gaps[i]);
  }

  lemma {:induction false} DeleteAll1Rendered()
    ensures Render(DeleteAll1Tokens, DeleteAll1Gaps) == ";"
  {
    RenderOne(DeleteAll1Tokens, DeleteAll1Gaps);
  }

  /** The script's third statement: DELETE with a star. */
  const DeleteAllText := "DELETE * FROM wherever;"

  const DeleteAllTokens := DeleteAll0Tokens + DeleteAll1Tokens
  const DeleteAllGaps := DeleteAll0Gaps + DeleteAll1Gaps

  /** The text cut where its chunks meet. */
  lemma {:induction false} DeleteAllPieces()
    ensures DeleteAllText == "DELETE * FROM wherever" + ";"
  {
  }

  lemma {:induction false} DeleteAllUpTo0Written()
    ensures Written("DELETE * FROM wherever", "", DeleteAll0Tokens, DeleteAll0Gaps)
  {
    DeleteAll0Separable();
    DeleteAll0Rendered();
  }

  lemma {:induction false} DeleteAllWritten()
    ensures Written(DeleteAllText, "", DeleteAllTokens, DeleteAllGaps)
  {
    DeleteAllUpTo0Written();
    DeleteAll1Separable();
    DeleteAll1Rendered();
    WrittenAppend("DELETE * FROM wherever", "", DeleteAll0Tokens, DeleteAll0Gaps, DeleteAll1Tokens, DeleteAll1Gaps);
    DeleteAllPieces();
  }

  const DeleteWhere0Tokens: seq<SqlToken> := [Token(Delete, "DELETE"), Token(From, "FROM"), I("wherever"), Token(Where, "WHERE")]
  const DeleteWhere0Gaps: seq<string> := [" ", " ", " ", " "]

  lemma {:induction false} DeleteWhere0Lexed()
    ensures forall i :: 0 <= i < |DeleteWhere0Tokens| ==> WellLexed(DeleteWhere0Tokens[i]) && DeleteWhere0Tokens[i].kind != End
  {
    assert Upper("DELETE") == "DELETE" && Upper("FROM") == "FROM" && Upper("wherever") == "WHEREVER" && Upper("WHERE") == "WHERE";
  }

  lemma {:induction false} DeleteWhere0Separable()
    ensures Separable(DeleteWhere0Tokens, DeleteWhere0Gaps)
  {
    DeleteWhere0Lexed();
    assert forall i :: 0 <= i < |DeleteWhere0Gaps| ==> IsBlank(DeleteWhere0Gaps[i]);
    assert forall i :: 0 <= i < |DeleteWhere0Tokens| - 1 ==> DeleteWhere0Gaps[i] == "" ==> !Glued(DeleteWhere0Tokens[i], DeleteWhere0Tokens[i + 1]);
  }

  lemma {:induction false} DeleteWhere0Rendered()
    ensures Render(DeleteWhere0Tokens, DeleteWhere0Gaps) == "DELETE FROM wherever WHERE "
  {
    RenderFour(DeleteWhere0Tokens, DeleteWhere0Gaps);
  }

  const DeleteWhere1Tokens: seq<SqlToken> := [I("atr1"), Token(Equals, "="), I("val1"), Token(Comma, ",")]
  const DeleteWhere1Gaps: seq<string> := ["", "", "", " "]

  lemma {:induction false} DeleteWhere1Lexed()
    ensures forall i :: 0 <= i < |DeleteWhere1Tokens| ==> WellLexed(DeleteWhere1Tokens[i]) && DeleteWhere1Tokens[i].kind != End
  {
    assert Upper("atr1") == "ATR1" && Upper("val1") == "VAL1";
  }

  lemma {:induction false} DeleteWhere1Separable()
    ensures Separable(DeleteWhere1Tokens, DeleteWhere1Gaps)
  {
    DeleteWhere1Lexed();
    assert forall i :: 0 <= i < |DeleteWhere1Gaps| ==> IsBlank(DeleteWhere1Gaps[i]);
    assert forall i :: 0 <= i < |DeleteWhere1Tokens| - 1 ==> DeleteWhere1Gaps[i] == "" ==> !Glued(DeleteWhere1Tokens[i], DeleteWhere1Tokens[i + 1]);
  }

  lemma {:induction false} DeleteWhere1Rendered()
    ensures Render(DeleteWhere1Tokens, DeleteWhere1Gaps) == "atr1=val1, "
  {
    RenderFour(DeleteWhere1Tokens, DeleteWhere1Gaps);
  }

  const DeleteWhere2Tokens: seq<SqlToken> := [I("atr2"), Token(Equals, "="), I("val2"), Token(Semicolon, ";")]
  const DeleteWhere2Gaps: seq<string> := ["", "", "", ""]

  lemma {:induction false} DeleteWhere2Lexed()
    ensures forall i :: 0 <= i < |DeleteWhere2Tokens| ==> WellLexed(DeleteWhere2Tokens[i]) && DeleteWhere2Tokens[i].kind != End
  {
    assert Upper("atr2") == "ATR2" && Upper("val2") == "VAL2";
  }

  lemma {:induction false} DeleteWhere2Separable()
    ensures Separable(DeleteWhere2Tokens, DeleteWhere2Gaps)
  {
    DeleteWhere2Lexed();
    assert forall i :: 0 <= i < |DeleteWhere2Gaps| ==> IsBlank(DeleteWhere2Gaps[i]);
    assert forall i :: 0 <= i < |DeleteWhere2Tokens| - 1 ==> DeleteWhere2Gaps[i] == "" ==> !Glued(DeleteWhere2Tokens[i], DeleteWhere2Tokens[i + 1]);
  }

  lemma {:induction false} DeleteWhere2Rendered()
    ensures Render(DeleteWhere2Tokens, DeleteWhere2Gaps) == "atr2=val2;"
  {
    RenderFour(DeleteWhere2Tokens, DeleteWhere2Gaps);
  }

  /** The script's last statement: DELETE with a WHERE list. */
  const DeleteWhereText := "DELETE FROM wherever WHERE atr1=val1, atr2=val2;"

  const DeleteWhereTokens := DeleteWhere0Tokens + DeleteWhere1Tokens + DeleteWhere2Tokens
  const DeleteWhereGaps := DeleteWhere0Gaps + DeleteWhere1Gaps + DeleteWhere2Gaps

  /** The text cut where its chunks meet. */
  lemma {:induction false} DeleteWherePieces()
    ensures DeleteWhereText == "DELETE FROM wherever WHERE " + "atr1=val1, " + "atr2=val2;"
  {
  }

  lemma {:induction false} DeleteWhereUpTo0Written()
    ensures Written("DELETE FROM wherever WHERE ", "", DeleteWhere0Tokens, DeleteWhere0Gaps)
  {
    DeleteWhere0Separable();
    DeleteWhere0Rendered();
  }

  lemma {:induction false} DeleteWhereUpTo1Written()
    ensures Written("DELETE FROM wherever WHERE " + "atr1=val1, ", "", DeleteWhere0Tokens + DeleteWhere1Tokens, DeleteWhere0Gaps + DeleteWhere1Gaps)
  {
    DeleteWhereUpTo0Written();
    DeleteWhere1Separable();
    DeleteWhere1Rendered();
    WrittenAppend("DELETE FROM wherever WHERE ", "", DeleteWhere0Tokens, DeleteWhere0Gaps, DeleteWhere1Tokens, DeleteWhere1Gaps);
  }

  lemma {:induction false} DeleteWhereWritten()
    ensures Written(DeleteWhereText, "", DeleteWhereTokens, DeleteWhereGaps)
  {
    DeleteWhereUpTo1Written();
    DeleteWhere2Separable();
    DeleteWhere2Rendered();
    WrittenAppend("DELETE FROM wherever WHERE " + "atr1=val1, ", "", DeleteWhere0Tokens + DeleteWhere1Tokens, DeleteWhere0Gaps + DeleteWhere1Gaps, DeleteWhere2Tokens, DeleteWhere2Gaps);
    DeleteWherePieces();
  }

  const SelectAll0Tokens: seq<SqlToken> := [Token(Select, "SELECT"), Token(Star, "*"), Token(From, "FROM"), I("t")]
  const SelectAll0Gaps: seq<string> := [" ", " ", " ", ""]

  lemma {:induction false} SelectAll0Lexed()
    ensures forall i :: 0 <= i < |SelectAll0Tokens| ==> WellLexed(SelectAll0Tokens[i]) && SelectAll0Tokens[i].kind != End
  {
    assert Upper("SELECT") == "SELECT" && Upper("FROM") == "FROM" && Upper("t") == "T";
  }

  lemma {:induction false} SelectAll0Separable()
    ensures Separable(SelectAll0Tokens, SelectAll0Gaps)
  {
    SelectAll0Lexed();
    assert forall i :: 0 <= i < |SelectAll0Gaps| ==> IsBlank(SelectAll0Gaps[i]);
    assert forall i :: 0 <= i < |SelectAll0Tokens| - 1 ==> SelectAll0Gaps[i] == "" ==> !Glued(SelectAll0Tokens[i], SelectAll0Tokens[i + 1]);
  }

  lemma {:induction false} SelectAll0Rendered()
    ensures Render(SelectAll0Tokens, SelectAll0Gaps) == "SELECT * FROM t"
  {
    RenderFour(SelectAll0Tokens, SelectAll0Gaps);
  }

  const SelectAll1Tokens: seq<SqlToken> := [Token(Semicolon, ";")]
  const SelectAll1Gaps: seq<string> := [""]

  lemma {:induction false} SelectAll1Lexed()
    ensures forall i :: 0 <= i < |SelectAll1Tokens| ==> WellLexed(SelectAll1Tokens[i]) && SelectAll1Tokens[i].kind != End
  {
  }

  lemma {:induction false} SelectAll1Separable()
    ensures Separable(SelectAll1Tokens, SelectAll1Gaps)
  {
    SelectAll1Lexed();
    assert forall i :: 0 <= i < |SelectAll1Gaps| ==> IsBlank(SelectAll1Gaps[i]);
  }

  lemma {:induction false} SelectAll1Rendered()
    ensures Render(SelectAll1Tokens, SelectAll1Gaps) == ";"
  {
    RenderOne(SelectAll1Tokens, SelectAll1Gaps);
  }

  /** SELECT with a star. */
  const SelectAllText := "SELECT * FROM t;"

  const SelectAllTokens := SelectAll0Tokens + SelectAll1Tokens
  const SelectAllGaps := SelectAll0Gaps + SelectAll1Gaps

  /** The text cut where its chunks meet. */
  lemma {:induction false} SelectAllPieces()
    ensures SelectAllText == "SELECT * FROM t" + ";"
  {
  }

  lemma {:induction false} SelectAllUpTo0Written()
    ensures Written("SELECT * FROM t", "", SelectAll0Tokens, SelectAll0Gaps)
  {
    SelectAll0Separable();
    SelectAll0Rendered();
  }

  lemma {:induction false} SelectAllWritten()
    ensures Written(SelectAllText, "", SelectAllTokens, SelectAllGaps)
  {
    SelectAllUpTo0Written();
    SelectAll1Separable();
    SelectAll1Rendered();
    WrittenAppend("SELECT * FROM t", "", SelectAll0Tokens, SelectAll0Gaps, SelectAll1Tokens, SelectAll1Gaps);
    SelectAllPieces();
  }

  const NumericValue0Tokens: seq<SqlToken> := [Token(Delete, "DELETE"), Token(From, "FROM"), I("t"), Token(Where, "WHERE")]
  const NumericValue0Gaps: seq<string> := [" ", " ", " ", " "]

  lemma {:induction false} NumericValue0Lexed()
    ensures forall i :: 0 <= i < |NumericValue0Tokens| ==> WellLexed(NumericValue0Tokens[i]) && NumericValue0Tokens[i].kind != End
  {
    assert Upper("DELETE") == "DELETE" && Upper("FROM") == "FROM" && Upper("t") == "T" && Upper("WHERE") == "WHERE";
  }

  lemma {:induction false} NumericValue0Separable()
    ensures Separable(NumericValue0Tokens, NumericValue0Gaps)
  {
    NumericValue0Lexed();
    assert forall i :: 0 <= i < |NumericValue0Gaps| ==> IsBlank(NumericValue0Gaps[i]);
    assert forall i :: 0 <= i < |NumericValue0Tokens| - 1 ==> NumericValue0Gaps[i] == "" ==> !Glued(NumericValue0Tokens[i], NumericValue0Tokens[i + 1]);
  }

  lemma {:induction false} NumericValue0Rendered()
    ensures Render(NumericValue0Tokens, NumericValue0Gaps) == "DELETE FROM t WHERE "
  {
    RenderFour(NumericValue0Tokens, NumericValue0Gaps);
  }

  const NumericValue1Tokens: seq<SqlToken> := [I("a"), Token(Equals, "="), Token(Number, "1"), Token(Comma, ",")]
  const NumericValue1Gaps: seq<string> := ["", "", "", " "]

  lemma {:induction false} NumericValue1Lexed()
    ensures forall i :: 0 <= i < |NumericValue1Tokens| ==> WellLexed(NumericValue1Tokens[i]) && NumericValue1Tokens[i].kind != End
  {
    assert Upper("a") == "A";
  }

  lemma {:induction false} NumericValue1Separable()
    ensures Separable(NumericValue1Tokens, NumericValue1Gaps)
  {
    NumericValue1Lexed();
    assert forall i :: 0 <= i < |NumericValue1Gaps| ==> IsBlank(NumericValue1Gaps[i]);
    assert forall i :: 0 <= i < |NumericValue1Tokens| - 1 ==> NumericValue1Gaps[i] == "" ==> !Glued(NumericValue1Tokens[i], NumericValue1Tokens[i + 1]);
  }

  lemma {:induction false} NumericValue1Rendered()
    ensures Render(NumericValue1Tokens, NumericValue1Gaps) == "a=1, "
  {
    RenderFour(NumericValue1Tokens, NumericValue1Gaps);
  }

  const NumericValue2Tokens: seq<SqlToken> := [I("b"), Token(Equals, "="), Token(Number, "2"), Token(Semicolon, ";")]
  const NumericValue2Gaps: seq<string> := ["", "", "", ""]

  lemma {:induction false} NumericValue2Lexed()
    ensures forall i :: 0 <= i < |NumericValue2Tokens| ==> WellLexed(NumericValue2Tokens[i]) && NumericValue2Tokens[i].kind != End
  {
    assert Upper("b") == "B";
  }

  lemma {:induction false} NumericValue2Separable()
    ensures Separable(NumericValue2Tokens, NumericValue2Gaps)
  {
    NumericValue2Lexed();
    assert forall i :: 0 <= i < |NumericValue2Gaps| ==> IsBlank(NumericValue2Gaps[i]);
    assert forall i :: 0 <= i < |NumericValue2Tokens| - 1 ==> NumericValue2Gaps[i] == "" ==> !Glued(NumericValue2Tokens[i], NumericValue2Tokens[i + 1]);
  }

  lemma {:induction false} NumericValue2Rendered()
    ensures Render(NumericValue2Tokens, NumericValue2Gaps) == "b=2;"
  {
    RenderFour(NumericValue2Tokens, NumericValue2Gaps);
  }

  /** A WHERE list whose values are numerals. */
  const NumericValueText := "DELETE FROM t WHERE a=1, b=2;"

  const NumericValueTokens := NumericValue0Tokens + NumericValue1Tokens + NumericValue2Tokens
  const NumericValueGaps := NumericValue0Gaps + NumericValue1Gaps + NumericValue2Gaps

  /** The text cut where its chunks meet. */
  lemma {:induction false} NumericValuePieces()
    ensures NumericValueText == "DELETE FROM t WHERE " + "a=1, " + "b=2;"
  {
  }

  lemma {:induction false} NumericValueUpTo0Written()
    ensures Written("DELETE FROM t WHERE ", "", NumericValue0Tokens, NumericValue0Gaps)
  {
    NumericValue0Separable();
    NumericValue0Rendered();
  }

  lemma {:induction false} NumericValueUpTo1Written()
    ensures Written("DELETE FROM t WHERE " + "a=1, ", "", NumericValue0Tokens + NumericValue1Tokens, NumericValue0Gaps + NumericValue1Gaps)
  {
    NumericValueUpTo0Written();
    NumericValue1Separable();
    NumericValue1Rendered();
    WrittenAppend("DELETE FROM t WHERE ", "", NumericValue0Tokens, NumericValue0Gaps, NumericValue1Tokens, NumericValue1Gaps);
  }

  lemma {:induction false} NumericValueWritten()
    ensures Written(NumericValueText, "", NumericValueTokens, NumericValueGaps)
  {
    NumericValueUpTo1Written();
    NumericValue2Separable();
    NumericValue2Rendered();
    WrittenAppend("DELETE FROM t WHERE " + "a=1, ", "", NumericValue0Tokens + NumericValue1Tokens, NumericValue0Gaps + NumericValue1Gaps, NumericValue2Tokens, NumericValue2Gaps);
    NumericValuePieces();
  }

  const StarWhere0Tokens: seq<SqlToken> := [Token(Delete, "DELETE"), Token(Star, "*"), Token(From, "FROM"), I("t")]
  const StarWhere0Gaps: seq<string> := [" ", " ", " ", " "]

  lemma {:induction false} StarWhere0Lexed()
    ensures forall i :: 0 <= i < |StarWhere0Tokens| ==> WellLexed(StarWhere0Tokens[i]) && StarWhere0Tokens[i].kind != End
  {
    assert Upper("DELETE") == "DELETE" && Upper("FROM") == "FROM" && Upper("t") == "T";
  }

  lemma {:induction false} StarWhere0Separable()
    ensures Separable(StarWhere0Tokens, StarWhere0Gaps)
  {
    StarWhere0Lexed();
    assert forall i :: 0 <= i < |StarWhere0Gaps| ==> IsBlank(StarWhere0Gaps[i]);
    assert forall i :: 0 <= i < |StarWhere0Tokens| - 1 ==> StarWhere0Gaps[i] == "" ==> !Glued(StarWhere0Tokens[i], StarWhere0Tokens[i + 1]);
  }

  lemma {:induction false} StarWhere0Rendered()
    ensures Render(StarWhere0Tokens, StarWhere0Gaps) == "DELETE * FROM t "
  {
    RenderFour(StarWhere0Tokens, StarWhere0Gaps);
  }

  const StarWhere1Tokens: seq<SqlToken> := [Token(Where, "WHERE"), I("a"), Token(Equals, "="), I("b")]
  const StarWhere1Gaps: seq<string> := [" ", "", "", ""]

  lemma {:induction false} StarWhere1Lexed()
    ensures forall i :: 0 <= i < |StarWhere1Tokens| ==> WellLexed(StarWhere1Tokens[i]) && StarWhere1Tokens[i].kind != End
  {
    assert Upper("WHERE") == "WHERE" && Upper("a") == "A" && Upper("b") == "B";
  }

  lemma {:induction false} StarWhere1Separable()
    ensures Separable(StarWhere1Tokens, StarWhere1Gaps)
  {
    StarWhere1Lexed();
    assert forall i :: 0 <= i < |StarWhere1Gaps| ==> IsBlank(StarWhere1Gaps[i]);
    assert forall i :: 0 <= i < |StarWhere1Tokens| - 1 ==> StarWhere1Gaps[i] == "" ==> !Glued(StarWhere1Tokens[i], StarWhere1Tokens[i + 1]);
  }

  lemma {:induction false} StarWhere1Rendered()
    ensures Render(StarWhere1Tokens, StarWhere1Gaps) == "WHERE a=b"
  {
    RenderFour(StarWhere1Tokens, StarWhere1Gaps);
  }

  const StarWhere2Tokens: seq<SqlToken> := [Token(Semicolon, ";")]
  const StarWhere2Gaps: seq<string> := [""]

  lemma {:induction false} StarWhere2Lexed()
    ensures forall i :: 0 <= i < |StarWhere2Tokens| ==> WellLexed(StarWhere2Tokens[i]) && StarWhere2Tokens[i].kind != End
  {
  }

  lemma {:induction false} StarWhere2Separable()
    ensures Separable(StarWhere2Tokens, StarWhere2Gaps)
  {
    StarWhere2Lexed();
    assert forall i :: 0 <= i < |StarWhere2Gaps| ==> IsBlank(StarWhere2Gaps[i]);
  }

  lemma {:induction false} StarWhere2Rendered()
    ensures Render(StarWhere2Tokens, StarWhere2Gaps) == ";"
  {
    RenderOne(StarWhere2Tokens, StarWhere2Gaps);
  }

  /** DELETE with both a star and a WHERE list. */
  const StarWhereText := "DELETE * FROM t WHERE a=b;"

  const StarWhereTokens := StarWhere0Tokens + StarWhere1Tokens + StarWhere2Tokens
  const StarWhereGaps := StarWhere0Gaps + StarWhere1Gaps + StarWhere2Gaps

  /** The text cut where its chunks meet. */
  lemma {:induction false} StarWherePieces()
    ensures StarWhereText == "DELETE * FROM t " + "WHERE a=b" + ";"
  {
  }

  lemma {:induction false} StarWhereUpTo0Written()
    ensures Written("DELETE * FROM t ", "", StarWhere0Tokens, StarWhere0Gaps)
  {
    StarWhere0Separable();
    StarWhere0Rendered();
  }

  lemma {:induction false} StarWhereUpTo1Written()
    ensures Written("DELETE * FROM t " + "WHERE a=b", "", StarWhere0Tokens + StarWhere1Tokens, StarWhere0Gaps + StarWhere1Gaps)
  {
    StarWhereUpTo0Written();
    StarWhere1Separable();
    StarWhere1Rendered();
    WrittenAppend("DELETE * FROM t ", "", StarWhere0Tokens, StarWhere0Gaps, StarWhere1Tokens, StarWhere1Gaps);
  }

  lemma {:induction false} StarWhereWritten()
    ensures Written(StarWhereText, "", StarWhereTokens, StarWhereGaps)
  {
    StarWhereUpTo1Written();
    StarWhere2Separable();
    StarWhere2Rendered();
    WrittenAppend("DELETE * FROM t " + "WHERE a=b", "", StarWhere0Tokens + StarWhere1Tokens, StarWhere0Gaps + StarWhere1Gaps, StarWhere2Tokens, StarWhere2Gaps);
    StarWherePieces();
  }

  const CommaFrom0Tokens: seq<SqlToken> := [Token(Select, "SELECT"), I("a"), Token(Comma, ","), Token(From, "FROM")]
  const CommaFrom0Gaps: seq<string> := [" ", "", " ", " "]

  lemma {:induction false} CommaFrom0Lexed()
    ensures forall i :: 0 <= i < |CommaFrom0Tokens| ==> WellLexed(CommaFrom0Tokens[i]) && CommaFrom0Tokens[i].kind != End
  {
    assert Upper("SELECT") == "SELECT" && Upper("a") == "A" && Upper("FROM") == "FROM";
  }

  lemma {:induction false} CommaFrom0Separable()
    ensures Separable(CommaFrom0Tokens, CommaFrom0Gaps)
  {
    CommaFrom0Lexed();
    assert forall i :: 0 <= i < |CommaFrom0Gaps| ==> IsBlank(CommaFrom0Gaps[i]);
    assert forall i :: 0 <= i < |CommaFrom0Tokens| - 1 ==> CommaFrom0Gaps[i] == "" ==> !Glued(CommaFrom0Tokens[i], CommaFrom0Tokens[i + 1]);
  }

  lemma {:induction false} CommaFrom0Rendered()
    ensures Render(CommaFrom0Tokens, CommaFrom0Gaps) == "SELECT a, FROM "
  {
    RenderFour(CommaFrom0Tokens, CommaFrom0Gaps);
  }

  const CommaFrom1Tokens: seq<SqlToken> := [I("t"), Token(Semicolon, ";")]
  const CommaFrom1Gaps: seq<string> := ["", ""]

  lemma {:induction false} CommaFrom1Lexed()
    ensures forall i :: 0 <= i < |CommaFrom1Tokens| ==> WellLexed(CommaFrom1Tokens[i]) && CommaFrom1Tokens[i].kind != End
  {
    assert Upper("t") == "T";
  }

  lemma {:induction false} CommaFrom1Separable()
    ensures Separable(CommaFrom1Tokens, CommaFrom1Gaps)
  {
    CommaFrom1Lexed();
    assert forall i :: 0 <= i < |CommaFrom1Gaps| ==> IsBlank(CommaFrom1Gaps[i]);
    assert forall i :: 0 <= i < |CommaFrom1Tokens| - 1 ==> CommaFrom1Gaps[i] == "" ==> !Glued(CommaFrom1Tokens[i], CommaFrom1Tokens[i + 1]);
  }

  lemma {:induction false} CommaFrom1Rendered()
    ensures Render(CommaFrom1Tokens, CommaFrom1Gaps) == "t;"
  {
    RenderTwo(CommaFrom1Tokens, CommaFrom1Gaps);
  }

  /** A column list that ends in a comma. */
  const CommaFromText := "SELECT a, FROM t;"

  const CommaFromTokens := CommaFrom0Tokens + CommaFrom1Tokens
  const CommaFromGaps := CommaFrom0Gaps + CommaFrom1Gaps

  /** The text cut where its chunks meet. */
  lemma {:induction false} CommaFromPieces()
    ensures CommaFromText == "SELECT a, FROM " + "t;"
  {
  }

  lemma {:induction false} CommaFromUpTo0Written()
    ensures Written("SELECT a, FROM ", "", CommaFrom0Tokens, CommaFrom0Gaps)
  {
    CommaFrom0Separable();
    CommaFrom0Rendered();
  }

  lemma {:induction false} CommaFromWritten()
    ensures Written(CommaFromText, "", CommaFromTokens, CommaFromGaps)
  {
    CommaFromUpTo0Written();
    CommaFrom1Separable();
    CommaFrom1Rendered();
    WrittenAppend("SELECT a, FROM ", "", CommaFrom0Tokens, CommaFrom0Gaps, CommaFrom1Tokens, CommaFrom1Gaps);
    CommaFromPieces();
  }

  const EmptySpecs0Tokens: seq<SqlToken> := [Token(Create, "CREATE"), Token(Table, "TABLE"), I("t"), Token(LParen, "(")]
  const EmptySpecs0Gaps: seq<string> := [" ", " ", " ", ""]

  lemma {:induction false} EmptySpecs0Lexed()
    ensures forall i :: 0 <= i < |EmptySpecs0Tokens| ==> WellLexed(EmptySpecs0Tokens[i]) && EmptySpecs0Tokens[i].kind != End
  {
    assert Upper("CREATE") == "CREATE" && Upper("TABLE") == "TABLE" && Upper("t") == "T";
  }

  lemma {:induction false} EmptySpecs0Separable()
    ensures Separable(EmptySpecs0Tokens, EmptySpecs0Gaps)
  {
    EmptySpecs0Lexed();
    assert forall i :: 0 <= i < |EmptySpecs0Gaps| ==> IsBlank(EmptySpecs0Gaps[i]);
    assert forall i :: 0 <= i < |EmptySpecs0Tokens| - 1 ==> EmptySpecs0Gaps[i] == "" ==> !Glued(EmptySpecs0Tokens[i], EmptySpecs0Tokens[i + 1]);
  }

  lemma {:induction false} EmptySpecs0Rendered()
    ensures Render(EmptySpecs0Tokens, EmptySpecs0Gaps) == "CREATE TABLE t ("
  {
    RenderFour(EmptySpecs0Tokens, EmptySpecs0Gaps);
  }

  const EmptySpecs1Tokens: seq<SqlToken> := [Token(RParen, ")"), Token(Semicolon, ";")]
  const EmptySpecs1Gaps: seq<string> := ["", ""]

  lemma {:induction false} EmptySpecs1Lexed()
    ensures forall i :: 0 <= i < |EmptySpecs1Tokens| ==> WellLexed(EmptySpecs1Tokens[i]) && EmptySpecs1Tokens[i].kind != End
  {
  }

  lemma {:induction false} EmptySpecs1Separable()
    ensures Separable(EmptySpecs1Tokens, EmptySpecs1Gaps)
  {
    EmptySpecs1Lexed();
    assert forall i :: 0 <= i < |EmptySpecs1Gaps| ==> IsBlank(EmptySpecs1Gaps[i]);
    assert forall i :: 0 <= i < |EmptySpecs1Tokens| - 1 ==> EmptySpecs1Gaps[i] == "" ==> !Glued(EmptySpecs1Tokens[i], EmptySpecs1Tokens[i + 1]);
  }

  lemma {:induction false} EmptySpecs1Rendered()
    ensures Render(EmptySpecs1Tokens, EmptySpecs1Gaps) == ");"
  {
    RenderTwo(EmptySpecs1Tokens, EmptySpecs1Gaps);
  }

  /** CREATE TABLE with no column specs. */
  const EmptySpecsText := "CREATE TABLE t ();"

  const EmptySpecsTokens := EmptySpecs0Tokens + EmptySpecs1Tokens
  const EmptySpecsGaps := EmptySpecs0Gaps + EmptySpecs1Gaps

  /** The text cut where its chunks meet. */
  lemma {:induction false} EmptySpecsPieces()
    ensures EmptySpecsText == "CREATE TABLE t (" + ");"
  {
  }

  lemma {:induction false} EmptySpecsUpTo0Written()
    ensures Written("CREATE TABLE t (", "", EmptySpecs0Tokens, EmptySpecs0Gaps)
  {
    EmptySpecs0Separable();
    EmptySpecs0Rendered();
  }

  lemma {:induction false} EmptySpecsWritten()
    ensures Written(EmptySpecsText, "", EmptySpecsTokens, EmptySpecsGaps)
  {
    EmptySpecsUpTo0Written();
    EmptySpecs1Separable();
    EmptySpecs1Rendered();
    WrittenAppend("CREATE TABLE t (", "", EmptySpecs0Tokens, EmptySpecs0Gaps, EmptySpecs1Tokens, EmptySpecs1Gaps);
    EmptySpecsPieces();
  }

  const DoubleComma0Tokens: seq<SqlToken> := [Token(Create, "CREATE"), Token(Table, "TABLE"), I("t"), Token(LParen, "(")]
  const DoubleComma0Gaps: seq<string> := [" ", " ", " ", ""]

  lemma {:induction false} DoubleComma0Lexed()
    ensures forall i :: 0 <= i < |DoubleComma0Tokens| ==> WellLexed(DoubleComma0Tokens[i]) && DoubleComma0Tokens[i].kind != End
  {
    assert Upper("CREATE") == "CREATE" && Upper("TABLE") == "TABLE" && Upper("t") == "T";
  }

  lemma {:induction false} DoubleComma0Separable()
    ensures Separable(DoubleComma0Tokens, DoubleComma0Gaps)
  {
    DoubleComma0Lexed();
    assert forall i :: 0 <= i < |DoubleComma0Gaps| ==> IsBlank(DoubleComma0Gaps[i]);
    assert forall i :: 0 <= i < |DoubleComma0Tokens| - 1 ==> DoubleComma0Gaps[i] == "" ==> !Glued(DoubleComma0Tokens[i], DoubleComma0Tokens[i + 1]);
  }

  lemma {:induction false} DoubleComma0Rendered()
    ensures Render(DoubleComma0Tokens, DoubleComma0Gaps) == "CREATE TABLE t ("
  {
    RenderFour(DoubleComma0Tokens, DoubleComma0Gaps);
  }

  const DoubleComma1Tokens: seq<SqlToken> := [I("a"), I("int"), Token(Comma, ","), Token(Comma, ",")]
  const DoubleComma1Gaps: seq<string> := [" ", "", "", " "]

  lemma {:induction false} DoubleComma1Lexed()
    ensures forall i :: 0 <= i < |DoubleComma1Tokens| ==> WellLexed(DoubleComma1Tokens[i]) && DoubleComma1Tokens[i].kind != End
  {
    assert Upper("a") == "A" && Upper("int") == "INT";
  }

  lemma {:induction false} DoubleComma1Separable()
    ensures Separable(DoubleComma1Tokens, DoubleComma1Gaps)
  {
    DoubleComma1Lexed();
    assert forall i :: 0 <= i < |DoubleComma1Gaps| ==> IsBlank(DoubleComma1Gaps[i]);
    assert forall i :: 0 <= i < |DoubleComma1Tokens| - 1 ==> DoubleComma1Gaps[i] == "" ==> !Glued(DoubleComma1Tokens[i], DoubleComma1Tokens[i + 1]);
  }

  lemma {:induction false} DoubleComma1Rendered()
    ensures Render(DoubleComma1Tokens, DoubleComma1Gaps) == "a int,, "
  {
    RenderFour(DoubleComma1Tokens, DoubleComma1Gaps);
  }

  const DoubleComma2Tokens: seq<SqlToken> := [I("b"), I("int"), Token(RParen, ")"), Token(Semicolon, ";")]
  const DoubleComma2Gaps: seq<string> := [" ", "", "", ""]

  lemma {:induction false} DoubleComma2Lexed()
    ensures forall i :: 0 <= i < |DoubleComma2Tokens| ==> WellLexed(DoubleComma2Tokens[i]) && DoubleComma2Tokens[i].kind != End
  {
    assert Upper("b") == "B" && Upper("int") == "INT";
  }

  lemma {:induction false} DoubleComma2Separable()
    ensures Separable(DoubleComma2Tokens, DoubleComma2Gaps)
  {
    DoubleComma2Lexed();
    assert forall i :: 0 <= i < |DoubleComma2Gaps| ==> IsBlank(DoubleComma2Gaps[i]);
    assert forall i :: 0 <= i < |DoubleComma2Tokens| - 1 ==> DoubleComma2Gaps[i] == "" ==> !Glued(DoubleComma2Tokens[i], DoubleComma2Tokens[i + 1]);
  }

  lemma {:induction false} DoubleComma2Rendered()
    ensures Render(DoubleComma2Tokens, DoubleComma2Gaps) == "b int);"
  {
    RenderFour(DoubleComma2Tokens, DoubleComma2Gaps);
  }

  /** Two commas in a row between column specs. */
  const DoubleCommaText := "CREATE TABLE t (a int,, b int);"

  const DoubleCommaTokens := DoubleComma0Tokens + DoubleComma1Tokens + DoubleComma2Tokens
  const DoubleCommaGaps := DoubleComma0Gaps + DoubleComma1Gaps + DoubleComma2Gaps

  /** The text cut where its chunks meet. */
  lemma {:induction false} DoubleCommaPieces()
    ensures DoubleCommaText == "CREATE TABLE t (" + "a int,, " + "b int);"
  {
  }

  lemma {:induction false} DoubleCommaUpTo0Written()
    ensures Written("CREATE TABLE t (", "", DoubleComma0Tokens, DoubleComma0Gaps)
  {
    DoubleComma0Separable();
    DoubleComma0Rendered();
  }

  lemma {:induction false} DoubleCommaUpTo1Written()
    ensures Written("CREATE TABLE t (" + "a int,, ", "", DoubleComma0Tokens + DoubleComma1Tokens, DoubleComma0Gaps + DoubleComma1Gaps)
  {
    DoubleCommaUpTo0Written();
    DoubleComma1Separable();
    DoubleComma1Rendered();
    WrittenAppend("CREATE TABLE t (", "", DoubleComma0Tokens, DoubleComma0Gaps, DoubleComma1Tokens, DoubleComma1Gaps);
  }

  lemma {:induction false} DoubleCommaWritten()
    ensures Written(DoubleCommaText, "", DoubleCommaTokens, DoubleCommaGaps)
  {
    DoubleCommaUpTo1Written();
    DoubleComma2Separable();
    DoubleComma2Rendered();
    WrittenAppend("CREATE TABLE t (" + "a int,, ", "", DoubleComma0Tokens + DoubleComma1Tokens, DoubleComma0Gaps + DoubleComma1Gaps, DoubleComma2Tokens, DoubleComma2Gaps);
    DoubleCommaPieces();
  }

  const MissingComma0Tokens: seq<SqlToken> := [Token(Create, "CREATE"), Token(Table, "TABLE"), I("t"), Token(LParen, "(")]
  const MissingComma0Gaps: seq<string> := [" ", " ", " ", ""]

  lemma {:induction false} MissingComma0Lexed()
    ensures forall i :: 0 <= i < |MissingComma0Tokens| ==> WellLexed(MissingComma0Tokens[i]) && MissingComma0Tokens[i].kind != End
  {
    assert Upper("CREATE") == "CREATE" && Upper("TABLE") == "TABLE" && Upper("t") == "T";
  }

  lemma {:induction false} MissingComma0Separable()
    ensures Separable(MissingComma0Tokens, MissingComma0Gaps)
  {
    MissingComma0Lexed();
    assert forall i :: 0 <= i < |MissingComma0Gaps| ==> IsBlank(MissingComma0Gaps[i]);
    assert forall i :: 0 <= i < |MissingComma0Tokens| - 1 ==> MissingComma0Gaps[i] == "" ==> !Glued(MissingComma0Tokens[i], MissingComma0Tokens[i + 1]);
  }

  lemma {:induction false} MissingComma0Rendered()
    ensures Render(MissingComma0Tokens, MissingComma0Gaps) == "CREATE TABLE t ("
  {
    RenderFour(MissingComma0Tokens, MissingComma0Gaps);
  }

  const MissingComma1Tokens: seq<SqlToken> := [I("a"), I("int"), I("b"), I("int")]
  const MissingComma1Gaps: seq<string> := [" ", " ", " ", ""]

  lemma {:induction false} MissingComma1Lexed()
    ensures forall i :: 0 <= i < |MissingComma1Tokens| ==> WellLexed(MissingComma1Tokens[i]) && MissingComma1Tokens[i].kind != End
  {
    assert Upper("a") == "A" && Upper("int") == "INT" && Upper("b") == "B";
  }

  lemma {:induction false} MissingComma1Separable()
    ensures Separable(MissingComma1Tokens, MissingComma1Gaps)
  {
    MissingComma1Lexed();
    assert forall i :: 0 <= i < |MissingComma1Gaps| ==> IsBlank(MissingComma1Gaps[i]);
    assert forall i :: 0 <= i < |MissingComma1Tokens| - 1 ==> MissingComma1Gaps[i] == "" ==> !Glued(MissingComma1Tokens[i], MissingComma1Tokens[i + 1]);
  }

  lemma {:induction false} MissingComma1Rendered()
    ensures Render(MissingComma1Tokens, MissingComma1Gaps) == "a int b int"
  {
    RenderFour(MissingComma1Tokens, MissingComma1Gaps);
  }

  const MissingComma2Tokens: seq<SqlToken> := [Token(RParen, ")"), Token(Semicolon, ";")]
  const MissingComma2Gaps: seq<string> := ["", ""]

  lemma {:induction false} MissingComma2Lexed()
    ensures forall i :: 0 <= i < |MissingComma2Tokens| ==> WellLexed(MissingComma2Tokens[i]) && MissingComma2Tokens[i].kind != End
  {
  }

  lemma {:induction false} MissingComma2Separable()
    ensures Separable(MissingComma2Tokens, MissingComma2Gaps)
  {
    MissingComma2Lexed();
    assert forall i :: 0 <= i < |MissingComma2Gaps| ==> IsBlank(MissingComma2Gaps[i]);
    assert forall i :: 0 <= i < |MissingComma2Tokens| - 1 ==> MissingComma2Gaps[i] == "" ==> !Glued(MissingComma2Tokens[i], MissingComma2Tokens[i + 1]);
  }

  lemma {:induction false} MissingComma2Rendered()
    ensures Render(MissingComma2Tokens, MissingComma2Gaps) == ");"
  {
    RenderTwo(MissingComma2Tokens, MissingComma2Gaps);
  }

  /** Two column specs with no comma between them. */
  const MissingCommaText := "CREATE TABLE t (a int b int);"

  const MissingCommaTokens := MissingComma0Tokens + MissingComma1Tokens + MissingComma2Tokens
  const MissingCommaGaps := MissingComma0Gaps + MissingComma1Gaps + MissingComma2Gaps

  /** The text cut where its chunks meet. */
  lemma {:induction false} MissingCommaPieces()
    ensures MissingCommaText == "CREATE TABLE t (" + "a int b int" + ");"
  {
  }

  lemma {:induction false} MissingCommaUpTo0Written()
    ensures Written("CREATE TABLE t (", "", MissingComma0Tokens, MissingComma0Gaps)
  {
    MissingComma0Separable();
    MissingComma0Rendered();
  }

  lemma {:induction false} MissingCommaUpTo1Written()
    ensures Written("CREATE TABLE t (" + "a int b int", "", MissingComma0Tokens + MissingComma1Tokens, MissingComma0Gaps + MissingComma1Gaps)
  {
    MissingCommaUpTo0Written();
    MissingComma1Separable();
    MissingComma1Rendered();
    WrittenAppend("CREATE TABLE t (", "", MissingComma0Tokens, MissingComma0Gaps, MissingComma1Tokens, MissingComma1Gaps);
  }

  lemma {:induction false} MissingCommaWritten()
    ensures Written(MissingCommaText, "", MissingCommaTokens, MissingCommaGaps)
  {
    MissingCommaUpTo1Written();
    MissingComma2Separable();
    MissingComma2Rendered();
    WrittenAppend("CREATE TABLE t (" + "a int b int", "", MissingComma0Tokens + MissingComma1Tokens, MissingComma0Gaps + MissingComma1Gaps, MissingComma2Tokens, MissingComma2Gaps);
    MissingCommaPieces();
  }

  const NoWhere0Tokens: seq<SqlToken> := [Token(Delete, "DELETE"), Token(From, "FROM"), I("t"), Token(Semicolon, ";")]
  const NoWhere0Gaps: seq<string> := [" ", " ", "", ""]

  lemma {:induction false} NoWhere0Lexed()
    ensures forall i :: 0 <= i < |NoWhere0Tokens| ==> WellLexed(NoWhere0Tokens[i]) && NoWhere0Tokens[i].kind != End
  {
    assert Upper("DELETE") == "DELETE" && Upper("FROM") == "FROM" && Upper("t") == "T";
  }

  lemma {:induction false} NoWhere0Separable()
    ensures Separable(NoWhere0Tokens, NoWhere0Gaps)
  {
    NoWhere0Lexed();
    assert forall i :: 0 <= i < |NoWhere0Gaps| ==> IsBlank(NoWhere0Gaps[i]);
    assert forall i :: 0 <= i < |NoWhere0Tokens| - 1 ==> NoWhere0Gaps[i] == "" ==> !Glued(NoWhere0Tokens[i], NoWhere0Tokens[i + 1]);
  }

  lemma {:induction false} NoWhere0Rendered()
    ensures Render(NoWhere0Tokens, NoWhere0Gaps) == "DELETE FROM t;"
  {
    RenderFour(NoWhere0Tokens, NoWhere0Gaps);
  }

  /** DELETE FROM with no WHERE list. */
  const NoWhereText := "DELETE FROM t;"

  const NoWhereTokens := NoWhere0Tokens
  const NoWhereGaps := NoWhere0Gaps

  lemma {:induction false} NoWhereWritten()
    ensures Written(NoWhereText, "", NoWhereTokens, NoWhereGaps)
  {
    NoWhere0Separable();
    NoWhere0Rendered();
  }

}
