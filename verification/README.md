# tip_SQL: a verified model of a tiny SQL lexer and parser

`tip_SQL.py` reads one statement of a small SQL dialect and turns it into a
syntax tree in two stages. The lexer `sql_lex` classifies the next character
and reads a run of it:
- whitespace is skipped;
- a digit run becomes `BROJ`;
- a letter-initial run of letters and digits becomes a keyword (matched
  without regard to case against `SELECT FROM CREATE TABLE DELETE WHERE`) or
  `IME`, and keeps its original spelling;
- each of `* , ( ) ; =` becomes its own token;
- any other character becomes a one-character `GREŠKA` token;
- the stream ends with `KRAJ`.

The recursive-descent parser `SQLParser` reads one `SELECT`, `CREATE TABLE`
or `DELETE` statement and then `;`. `sql_parse` also requires the end of
input after it.

The project models both stages as pure Dafny functions:

| file | module | contents |
|---|---|---|
| `wrappers.dfy` | `Wrappers` | `Option`, and `Result` with `:-` propagation (a raised syntax error becomes a `Failure`) |
| `tip.dfy` | `Tip` | the parts of the `tip` library the core uses: the character classifier `vrsta` (`Classify`, called at tip_SQL.py:34), the tokenizer reads `praznine`/`broj`/`ime`/`čitaj`, `Token`, and the driver primitives `pročitaj` (`Expect`) and `granaj` (`Branch`) |
| `sql_lexer.dfy` | `SqlLexer`, `SqlLexerFacts` | the `SQL` kinds, the keyword and operator tables, `sql_lex` as `Lex`, and what its output satisfies |
| `sql_grammar.dfy` | `SqlGrammar` | the tree (`Statement`, `ColSpec`, `Attr`), and the grammar as token patterns printed from a tree, an independent reference for the parser |
| `sql_parser.dfy` | `SqlParser` | one function per rule and `sql_parse` as `Parse`, each stating the pattern it consumed |
| `sql_properties.dfy` | `SqlCompleteness` | the converse: every stream a pattern describes is parsed into that tree, so parsing succeeds exactly on the grammar's streams |
| `sql_rejections.dfy` | `SqlRejections` | the inputs the grammar refuses, and the shape of what it accepts |
| `sql_example_texts.dfy`, `sql_example_trees.dfy`, `sql_examples.dfy` | `SqlExampleTexts`, `SqlExampleTrees`, `SqlExamples` | the script's four statements and a set of refused inputs, as text, taken through both stages |

Facts the model relies on, and how it treats them:
- **Positions.** A parser position is an index into the token sequence. The
  rules require a stream that ends in `KRAJ` and has no earlier `KRAJ`
  (`Terminated`); the lexer always produces one (`LexShape`).
- **Character classes.** `Tip.Classify` is `vrsta` (tip_SQL.py:34): end of
  text, whitespace, digit, letter or other, tested in that order. It carries
  no contract of its own; what each class leads to is stated by `Scan` and
  `ScanShape`.
- **Unset fields.** A field the Python code leaves unset on an `AST` is
  `false` or empty in the tree.
- **Trailing comma.** CREATE TABLE accepts a comma after the last column
  spec. The grammar patterns take this as a `trailing` flag.
- **Numeric WHERE values.** A value in a WHERE list is read with
  `pročitaj(SQL.IME)` (tip_SQL.py:122). A numeral lexes as `BROJ`, so
  `DELETE FROM t WHERE a=1, b=2;` is refused (`SqlExamples.NumericValueRefused`).

## Model

| member | source | states |
|---|---|---|
| Tip.ReadWhile | tip_SQL.py:36-39 | a tokenizer read consumes a prefix whose characters all satisfy the class and stops only before a character outside it; the read text followed by the rest is the input |
| Tip.ReadWhileIsMaximal | tip_SQL.py:36-39 | the read is the maximal munch: any prefix satisfying the class and not followed by a class character is exactly the one read |
| Tip.SkipSpaces | tip_SQL.py:36 | `praznine` consumes a non-empty maximal whitespace run and nothing else |
| Tip.ReadNumber | tip_SQL.py:37 | `broj` consumes a non-empty maximal digit run |
| Tip.ReadName | tip_SQL.py:39 | `ime` consumes a maximal run of letters and digits that starts with a letter |
| Tip.ReadChar | tip_SQL.py:44-45 | `čitaj` consumes exactly one character |
| Tip.Expect | tip_SQL.py:51 | `pročitaj(k)` succeeds exactly when the lookahead has kind `k`, then yields its text and moves one token on; otherwise it reports `k` as expected and the token found |
| Tip.Branch | tip_SQL.py:52-53 | `granaj(ks)` succeeds exactly when the lookahead kind is in `ks` and yields that kind without consuming; otherwise it reports `ks` and the token found |
| SqlLexer.KeywordKind | tip_SQL.py:41 | `SQL[kw]` for a listed keyword is the keyword kind whose spelling is `kw` |
| SqlLexer.OperatorKind | tip_SQL.py:44 | `SQL(znak)` for an operator character is the operator kind whose value is that character |
| SqlLexer.Upper | tip_SQL.py:40 | `str.upper`: the same length, no lower-case letter left, every character kept or a lower-case letter raised to its capital |
| SqlLexer.UpperIdempotent | tip_SQL.py:40 | upper-casing an upper-cased run changes nothing |
| SqlLexer.WordKind | tip_SQL.py:27-41 | a letter run is IME exactly when its upper-case form is not in the keyword list; otherwise it gets the keyword whose spelling is that upper-case form |
| SqlLexer.WordKindIgnoresCase | tip_SQL.py:39-41 | a letter run and its upper-case form get the same kind, so keywords match in any case |
| SqlLexer.Scan | tip_SQL.py:32-45 | one turn of the loop finishes exactly at the end of the text; otherwise it skips or emits a non-empty prefix of the text |
| SqlLexer.Lex | tip_SQL.py:30-45 | `sql_lex` yields a stream that ends in `KRAJ` with empty text and holds no earlier `KRAJ` |
| SqlLexerFacts.ScanShape | tip_SQL.py:33-45 | each turn's emitted token is well lexed: whitespace is skipped maximally, digit runs are BROJ, letter runs get their keyword or IME kind, operators are their own one-character kind, anything else is a one-character GREŠKA |
| SqlLexerFacts.LexShape | tip_SQL.py:30-35 | the token list ends in `KRAJ` with empty text, no earlier token is `KRAJ`, and every token is well lexed |
| SqlLexerFacts.LexTexts | tip_SQL.py:33-45 | the concatenated token texts are the input with its whitespace removed, so every other character lands in exactly one token, in order |
| SqlLexerFacts.LexStray | tip_SQL.py:43-45 | a character no rule reads yields a one-character GREŠKA token of its own |
| SqlLexerFacts.LexTokenThen | tip_SQL.py:37-45 | a well-lexed token's text followed by text that does not continue its run lexes to that token first |
| SqlLexerFacts.LexRender | tip_SQL.py:30-45 | writing well-lexed tokens out with whitespace wherever two runs would merge lexes back to the same tokens then `KRAJ` (the inverse of lexing) |
| SqlLexerFacts.LexRenderPadded | tip_SQL.py:33-36 | the same holds with leading whitespace, which yields no token |
| SqlParser.FromTable | tip_SQL.py:63-64 | `FROM` then one IME, whose text is the table name |
| SqlParser.ColumnList | tip_SQL.py:56-62 | a non-empty list of names in source order separated by single commas, stopping at `FROM` with no comma before it |
| SqlParser.SelectAll | tip_SQL.py:53-64 | the `*` branch of `select` yields the select-all tree with no columns and consumed `SELECT * FROM t` |
| SqlParser.SelectColumns | tip_SQL.py:56-64 | the name branch of `select` yields a tree that is not select-all, with a non-empty column list, and consumed its pattern |
| SqlParser.SelectRule | tip_SQL.py:49-65 | `select` yields a SELECT tree that is either select-all or a non-empty column list, never both, and consumed exactly that tree's token pattern |
| SqlParser.SizeSuffix | tip_SQL.py:71-76 | a size is present exactly when `( BROJ )` follows the type; after it comes a comma or `)` |
| SqlParser.SpecHead | tip_SQL.py:67-76 | name and type (both IME), then the optional size |
| SqlParser.SpecRule | tip_SQL.py:67-79 | `spec_stupac` consumes one spec and then either stops before `)` or consumes one comma |
| SqlParser.SpecList | tip_SQL.py:86-91 | at least one spec, stopping at `)`, the specs separated by commas with at most one comma after the last |
| SqlParser.CreateHead | tip_SQL.py:82-87 | `CREATE TABLE` name `(`: exactly four tokens, the third an IME whose text is the table name |
| SqlParser.CreateTail | tip_SQL.py:88-93 | after that header, the spec loop and `)` yield a CREATE tree with at least one spec that consumed its pattern, with or without the trailing comma |
| SqlParser.CreateRule | tip_SQL.py:81-93 | `create` yields a CREATE tree with at least one spec and consumed its pattern, with or without the trailing comma |
| SqlParser.AttrRule | tip_SQL.py:118-123 | `vrijednost_atributa` reads `IME = IME`, key and value in order |
| SqlParser.AttrList | tip_SQL.py:109-116 | one or more assignments in order, separated by commas and stopping at `;` |
| SqlParser.DeleteRule | tip_SQL.py:95-116 | `delete` yields either the star form with no assignments or the WHERE form with at least one, and consumed that tree's pattern |
| SqlParser.BodyRule | tip_SQL.py:126-132 | the `granaj(SELECT, CREATE, DELETE)` dispatch yields a well-formed tree that consumed its pattern, with or without the trailing comma |
| SqlParser.StatementRule | tip_SQL.py:125-134 | `naredba` dispatches on SELECT/CREATE/DELETE and then reads `;` |
| SqlParser.ParseTokens | tip_SQL.py:137-141 | a successful parse yields a well-formed tree whose pattern, then `KRAJ`, is the whole stream |
| SqlParser.Parse | tip_SQL.py:137-141 | `sql_parse` of a text: the same of the text's token list |
| SqlCompleteness.SelectAllComplete | tip_SQL.py:53-64 | every `SELECT * FROM t` stream is read by the `*` branch into the select-all tree for `t` |
| SqlCompleteness.SelectColumnsComplete | tip_SQL.py:56-64 | every stream of a column list's SELECT pattern is read by the name branch into that column list and table |
| SqlCompleteness.SelectComplete | tip_SQL.py:49-65 | every stream of a SELECT tree's pattern is parsed by `select` into that tree |
| SqlCompleteness.SpecListComplete | tip_SQL.py:86-91 | every run of specs' pattern, with or without the trailing comma, is parsed into those specs |
| SqlCompleteness.CreateHeadComplete | tip_SQL.py:82-87 | a `CREATE TABLE` name `(` stream is read to that name, four tokens on |
| SqlCompleteness.CreateComplete | tip_SQL.py:81-93 | every stream of a CREATE tree's pattern is parsed by `create` into that tree |
| SqlCompleteness.AttrListComplete | tip_SQL.py:109-116 | every run of assignments' pattern followed by `;` is parsed into those assignments |
| SqlCompleteness.DeleteComplete | tip_SQL.py:95-116 | every stream of a DELETE tree's pattern followed by `;` is parsed by `delete` into that tree |
| SqlCompleteness.StatementComplete | tip_SQL.py:125-134 | every stream of a statement's pattern is parsed by `naredba` into that tree |
| SqlCompleteness.ParseComplete | tip_SQL.py:137-141 | a stream that is a well-formed tree's pattern then `KRAJ` is parsed into that tree |
| SqlCompleteness.ParseCharacterisation | tip_SQL.py:137-141 | parsing a token list yields a tree exactly when the tree is well formed and the list is its pattern then `KRAJ` |
| SqlCompleteness.GrammarUnambiguous | tip_SQL.py:125-141 | two well-formed trees whose patterns match the same stream are equal |
| SqlCompleteness.ParseTextCharacterisation | tip_SQL.py:137-141 | `sql_parse` of a text yields a tree exactly when the text's token list is that tree's pattern then `KRAJ` |
| SqlRejections.ParsedChain | tip_SQL.py:125-141 | an accepted stream starts with SELECT, CREATE or DELETE, and every two adjacent kinds form a pair the grammar allows |
| SqlRejections.RejectsAdjacent | tip_SQL.py:49-134 | any two adjacent tokens whose kinds the grammar never puts side by side make parsing fail |
| SqlRejections.RejectsMissingComma | tip_SQL.py:77-91 | three IME tokens in a row, as in two column specs without a comma, make parsing fail |
| SqlRejections.RejectsStart | tip_SQL.py:126 | a stream that does not start with SELECT, CREATE or DELETE is refused |
| SqlRejections.RejectsInvalid | tip_SQL.py:45 | a GREŠKA token anywhere makes parsing fail |
| SqlRejections.RejectsCommaBeforeFrom | tip_SQL.py:61-63 | a comma directly before `FROM` makes parsing fail |
| SqlRejections.RejectsEmptyParens | tip_SQL.py:87-89 | `()` makes parsing fail |
| SqlRejections.RejectsDoubleComma | tip_SQL.py:77-78 | two consecutive commas make parsing fail |
| SqlRejections.RejectsNumericValue | tip_SQL.py:122 | a BROJ right after `=` makes parsing fail |
| SqlRejections.SemicolonBeforeEnd | tip_SQL.py:133-140 | an accepted stream has `;` directly before `KRAJ` |
| SqlRejections.SemicolonOnlyLast | tip_SQL.py:133-140 | no `;` other than that one appears, so a second statement is refused |
| SqlRejections.SingleSemicolon | tip_SQL.py:133-140 | a token of an accepted stream is `;` exactly when it is the one before `KRAJ` |
| SqlRejections.AcceptsOpening | tip_SQL.py:126-132 | the first token is the statement's keyword, and for SELECT and DELETE the second is `*` exactly in the select-all or delete-all form |
| SqlRejections.DeleteAllForm | tip_SQL.py:100-107 | `DELETE *` is exactly `DELETE * FROM t ;`: no assignments and no WHERE anywhere |
| SqlRejections.RejectsStarWhere | tip_SQL.py:100-107 | a WHERE anywhere after `DELETE *` makes parsing fail |
| SqlRejections.DeleteWhereForm | tip_SQL.py:104-116 | `DELETE FROM t` must continue with `WHERE` and yields at least one assignment |
| SqlRejections.RejectsMissingWhere | tip_SQL.py:108 | DELETE FROM whose fourth token is not WHERE makes parsing fail |
| SqlRejections.SelectForm | tip_SQL.py:52-55 | `SELECT *` is exactly `SELECT * FROM t ;` and yields no column list |
| SqlRejections.ParseRejectsStray | tip_SQL.py:43-45 | `sql_parse` fails on any text holding a character no lexer rule reads |
| SqlExampleTexts.LexWritten | tip_SQL.py:30-45 | `LexRenderPadded` restated for a text known to be written out (`Written`): it lexes to those tokens then `KRAJ`; the examples' entry to the lexer's inverse |
| SqlExamples.PersonsParsed | tip_SQL.py:145-154 | the script's CREATE TABLE Persons gives five specs, the last four with size 255, with the trailing comma accepted |
| SqlExamples.SelectParsed | tip_SQL.py:156 | the script's SELECT gives the columns firstName, lastName from wherever |
| SqlExamples.DeleteAllParsed | tip_SQL.py:158 | the script's `DELETE *` gives the delete-all tree for wherever |
| SqlExamples.DeleteWhereParsed | tip_SQL.py:160 | the script's DELETE … WHERE gives the assignments atr1=val1 and atr2=val2 in order |
| SqlExamples.SelectAllParsed | tip_SQL.py:52-55 | `SELECT * FROM t;` gives the select-all tree |
| SqlExamples.NumericValueRefused | tip_SQL.py:122 | `DELETE FROM t WHERE a=1, b=2;` is refused |
| SqlExamples.StarWhereRefused | tip_SQL.py:106-107 | `DELETE * FROM t WHERE a=b;` is refused |
| SqlExamples.CommaFromRefused | tip_SQL.py:61-63 | `SELECT a, FROM t;` is refused |
| SqlExamples.EmptySpecsRefused | tip_SQL.py:87-89 | `CREATE TABLE t ();` is refused |
| SqlExamples.DoubleCommaRefused | tip_SQL.py:77-78 | `CREATE TABLE t (a int,, b int);` is refused |
| SqlExamples.MissingCommaRefused | tip_SQL.py:91 | `CREATE TABLE t (a int b int);` is refused |
| SqlExamples.NoWhereRefused | tip_SQL.py:108 | `DELETE FROM t;` is refused |
| SqlExamples.StrayRefused | tip_SQL.py:45 | `SELECT a-b FROM t;` is refused because `-` is a GREŠKA token |

## Left out

- The `tip` library is not part of this model. Only the behaviour the core's
  call sites need is modelled: the classifier, the four reads, and
  `pročitaj`/`granaj`.
- Character classes are ASCII. Whitespace is space, tab, line feed, carriage
  return, vertical tab and form feed. Letters are `A-Z a-z` and digits are
  `0-9`. `str.upper` is modelled on ASCII letters only. Python's Unicode
  classes and case mapping are not modelled.
- `sql_lex` is a generator. The model produces the whole token list eagerly;
  the parser only ever reads it forward.
- The placeholder values of the `SQL` enumeration (`' \t\n'`, `None`, `'10'`,
  …) and `__repr__` are not modelled. The kinds are only distinct.
- Exceptions become a `Failure` carrying the expected kinds and the token
  found. The text of the library's error messages is not modelled.
- The `__main__` block's printing is not modelled. Its four inputs appear as
  example lemmas.
- The `AST` class's dynamic attributes are modelled as fixed record fields.
