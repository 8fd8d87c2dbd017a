/**
 * "Release N-1 must keep running on schema N": what each schema change does to
 * the queries of the previous release, and which changes the linter lets by.
 */
module SchemaSafety {
  import opened Common
  import opened MigrationText
  import opened Lexemes
  import opened MigrationLint

  // ---- Schemas and queries ------------------------------------------------------

  datatype Column = Column(notNull: bool, hasDefault: bool)

  type Table = map<string, Column>

  type Schema = map<string, Table>

  datatype Query = Select(table: string, columns: set<string>) | Insert(table: string, columns: set<string>)

  /** The tables and columns exist, and an insert leaves out no column that must be given. */
  ghost predicate Valid(schema: Schema, q: Query) {
    && q.table in schema
    && q.columns <= schema[q.table].Keys
    && (q.Insert? ==> forall c :: c in schema[q.table] && Required(schema[q.table][c]) ==> c in q.columns)
  }

  predicate Required(column: Column) {
    column.notNull && !column.hasDefault
  }

  // ---- Schema changes as they are written -----------------------------------------

  /** An identifier: without quotes it stands for its lower-case form. */
  datatype Ident = Bare(name: string) | Quoted(content: string)

  function LowerChar(c: char): char {
    if 'A' <= c <= 'Z' then c + ' ' else c
  }

  function NameOf(id: Ident): string {
    if id.Quoted? then id.content else seq(|id.name|, i requires 0 <= i < |id.name| => LowerChar(id.name[i]))
  }

  function Spelled(id: Ident): seq<Lexeme> {
    match id
    case Bare(name) => [Word(name)]
    case Quoted(content) => [Sep('\"')] + Lex(content) + [Sep('\"')]
  }

  /** A type of any number of words; `notNull` for a domain that refuses NULL, `fills` for a serial. */
  datatype SqlType = SqlType(lexemes: seq<Lexeme>, notNull: bool, fills: bool)

  /** What follows the type of a new column, clause by clause; `fills` for a generated value. */
  datatype Clause =
    | NotNull
    | PrimaryKey
    | DefaultNull
    | DefaultTo(value: seq<Lexeme>)
    | Extra(lexemes: seq<Lexeme>, fills: bool)

  /**
   * Words of no effect on the columns: before the table (IF EXISTS, ONLY, a
   * schema), before the column (or a constraint's name), at the end.
   */
  datatype Around = Around(pre: seq<Lexeme>, mid: seq<Lexeme>, post: seq<Lexeme>)

  /**
   * One schema change per statement. `keyword` says whether the optional word
   * COLUMN is written, `guard` whether IF NOT EXISTS is. `Other` is a statement
   * that touches no column the previous release knows.
   */
  datatype Ddl =
    | CreateTable(made: string, definition: Table)
    | AddColumn(
        table: Ident, keyword: bool, guard: bool, column: Ident, sqlType: SqlType, clauses: seq<Clause>, around: Around)
    | DropColumn(table: Ident, keyword: bool, column: Ident, around: Around)
    | DropTable(table: Ident, around: Around)
    | RenameColumn(table: Ident, keyword: bool, column: Ident, newName: Ident, around: Around)
    | RenameTable(table: Ident, newName: Ident, around: Around)
    | SetNotNull(table: Ident, keyword: bool, column: Ident, around: Around)
    | DropDefault(table: Ident, keyword: bool, column: Ident, around: Around)
    | AddPrimaryKey(table: Ident, columns: seq<Ident>, around: Around)
    | Other

  /** What a new column's type and clauses make of it. */
  function Defined(sqlType: SqlType, clauses: seq<Clause>): Column {
    Column(
      sqlType.notNull || NotNull in clauses || PrimaryKey in clauses,
      sqlType.fills || exists clause | clause in clauses :: clause.DefaultTo? || (clause.Extra? && clause.fills))
  }

  function NamesOf(ids: seq<Ident>): set<string> {
    set id | id in ids :: NameOf(id)
  }

  /** The table with these columns made NOT NULL. */
  function Enforced(table: Table, columns: set<string>): Table {
    map c | c in table :: if c in columns then table[c].(notNull := true) else table[c]
  }

  /** The schema after a change; one the server rejects changes nothing. */
  function Apply(schema: Schema, d: Ddl): Schema {
    match d
    case CreateTable(t, definition) => if t in schema then schema else schema[t := definition]
    case AddColumn(table, _, _, column, sqlType, clauses, _) =>
      var t, c := NameOf(table), NameOf(column);
      if t in schema && c !in schema[t] then schema[t := schema[t][c := Defined(sqlType, clauses)]] else schema
    case DropColumn(table, _, column, _) =>
      var t, c := NameOf(table), NameOf(column);
      if t in schema && c in schema[t] then schema[t := schema[t] - {c}] else schema
    case DropTable(table, _) => schema - {NameOf(table)}
    case RenameColumn(table, _, column, newName, _) =>
      var t, c, to := NameOf(table), NameOf(column), NameOf(newName);
      if t in schema && c in schema[t] && to !in schema[t]
      then schema[t := (schema[t] - {c})[to := schema[t][c]]] else schema
    case RenameTable(table, newName, _) =>
      var t, to := NameOf(table), NameOf(newName);
      if t in schema && to !in schema then (schema - {t})[to := schema[t]] else schema
    case SetNotNull(table, _, column, _) =>
      var t, c := NameOf(table), NameOf(column);
      if t in schema && c in schema[t] then schema[t := schema[t][c := schema[t][c].(notNull := true)]] else schema
    case DropDefault(table, _, column, _) =>
      var t, c := NameOf(table), NameOf(column);
      if t in schema && c in schema[t] then schema[t := schema[t][c := schema[t][c].(hasDefault := false)]] else schema
    case AddPrimaryKey(table, columns, _) =>
      var t, names := NameOf(table), NamesOf(columns);
      if t in schema && names <= schema[t].Keys then schema[t := Enforced(schema[t], names)] else schema
    case Other => schema
  }

  /** A new column no insert may leave out: it refuses NULL, and nothing fills it. */
  predicate MustBeGiven(sqlType: SqlType, clauses: seq<Clause>) {
    && (sqlType.notNull || NotNull in clauses || PrimaryKey in clauses)
    && !sqlType.fills
    && forall clause :: clause in clauses ==> !clause.DefaultTo? && (clause.Extra? ==> !clause.fills)
  }

  lemma GivenExactly(sqlType: SqlType, clauses: seq<Clause>)
    ensures Required(Defined(sqlType, clauses)) <==> MustBeGiven(sqlType, clauses)
  {
  }

  /** Two unquoted names stand for the same thing exactly when they differ in letter case alone. */
  lemma CaseIsFolded(a: string, b: string)
    ensures NameOf(Bare(a)) == NameOf(Bare(b)) <==> Upper(a) == Upper(b)
  {
    forall c, d
      ensures LowerChar(c) == LowerChar(d) <==> UpperChar(c) == UpperChar(d)
    {
    }
    hide LowerChar, UpperChar;
    if |a| == |b| {
      var x, y := NameOf(Bare(a)), NameOf(Bare(b));
      assert forall i :: 0 <= i < |a| ==> (x[i] == y[i] <==> LowerChar(a[i]) == LowerChar(b[i]));
      assert forall i :: 0 <= i < |a| ==> (Upper(a)[i] == Upper(b)[i] <==> UpperChar(a[i]) == UpperChar(b[i]));
      if x == y {
        assert forall i :: 0 <= i < |a| ==> Upper(a)[i] == Upper(b)[i];
      }
      if Upper(a) == Upper(b) {
        assert forall i :: 0 <= i < |a| ==> x[i] == y[i];
      }
    }
  }

  /** Some query of the previous release worked before the change and does not after it. */
  ghost predicate BreaksSomeQuery(schema: Schema, d: Ddl) {
    exists q :: Valid(schema, q) && !Valid(Apply(schema, d), q)
  }

  predicate Breaks(schema: Schema, d: Ddl) {
    match d
    case AddColumn(t, _, _, c, sqlType, clauses, _) =>
      NameOf(t) in schema && NameOf(c) !in schema[NameOf(t)] && MustBeGiven(sqlType, clauses)
    case DropColumn(t, _, c, _) => NameOf(t) in schema && NameOf(c) in schema[NameOf(t)]
    case DropTable(t, _) => NameOf(t) in schema
    case RenameColumn(t, _, c, to, _) =>
      NameOf(t) in schema && NameOf(c) in schema[NameOf(t)] && NameOf(to) !in schema[NameOf(t)]
    case RenameTable(t, to, _) => NameOf(t) in schema && NameOf(to) !in schema
    case SetNotNull(t, _, c, _) =>
      NameOf(t) in schema && NameOf(c) in schema[NameOf(t)]
      && !schema[NameOf(t)][NameOf(c)].notNull && !schema[NameOf(t)][NameOf(c)].hasDefault
    case DropDefault(t, _, c, _) =>
      NameOf(t) in schema && NameOf(c) in schema[NameOf(t)]
      && schema[NameOf(t)][NameOf(c)].notNull && schema[NameOf(t)][NameOf(c)].hasDefault
    case AddPrimaryKey(t, columns, _) =>
      NameOf(t) in schema && NamesOf(columns) <= schema[NameOf(t)].Keys
      && exists c | c in NamesOf(columns) :: !schema[NameOf(t)][c].notNull && !schema[NameOf(t)][c].hasDefault
    case _ => false
  }

  lemma HarmlessKeepsQueries(schema: Schema, d: Ddl, q: Query)
    requires !Breaks(schema, d) && Valid(schema, q)
    ensures Valid(Apply(schema, d), q)
  {
    if d.AddColumn? {
      GivenExactly(d.sqlType, d.clauses);
    }
    hide NameOf, Defined, NamesOf, MustBeGiven;
  }

  /** A column that an insert may leave out. */
  ghost function LeftToFill(table: Table, columns: set<string>): (c: string)
    requires columns <= table.Keys && exists c :: c in columns && !table[c].notNull && !table[c].hasDefault
    ensures c in columns && !table[c].notNull && !table[c].hasDefault
  {
    var c :| c in columns && !table[c].notNull && !table[c].hasDefault;
    c
  }

  /** A change breaks some query exactly when the condition read off the schema says so. */
  lemma BreaksExactly(schema: Schema, d: Ddl)
    ensures Breaks(schema, d) <==> BreaksSomeQuery(schema, d)
  {
    if d.AddColumn? {
      GivenExactly(d.sqlType, d.clauses);
    }
    hide NameOf, Defined, NamesOf, MustBeGiven;
    if Breaks(schema, d) {
      var t := NameOf(d.table);
      var c := if d.AddPrimaryKey? then LeftToFill(schema[t], NamesOf(d.columns)) else "";
      var q := match d
        case AddColumn(_, _, _, _, _, _, _) => Insert(t, schema[t].Keys)
        case SetNotNull(_, _, column, _) => Insert(t, schema[t].Keys - {NameOf(column)})
        case DropDefault(_, _, column, _) => Insert(t, schema[t].Keys - {NameOf(column)})
        case AddPrimaryKey(_, _, _) => Insert(t, schema[t].Keys - {c})
        case DropColumn(_, _, column, _) => Select(t, {NameOf(column)})
        case RenameColumn(_, _, column, _, _) => Select(t, {NameOf(column)})
        case _ => Select(t, {});
      assert Valid(schema, q);
      assert !Valid(Apply(schema, d), q);
    } else {
      forall q | Valid(schema, q)
        ensures Valid(Apply(schema, d), q)
      {
        HarmlessKeepsQueries(schema, d, q);
      }
    }
  }

  // ---- The words of a change ----------------------------------------------------------

  datatype Keyword = ALTER | TABLE | ADD | COLUMN | DROP | RENAME | TO | SET | NOT | NULL | DEFAULT

  function KeywordText(k: Keyword): (w: string)
    ensures w != ""
  {
    match k
    case ALTER => "ALTER" case TABLE => "TABLE" case ADD => "ADD" case COLUMN => "COLUMN"
    case DROP => "DROP" case RENAME => "RENAME" case TO => "TO" case SET => "SET"
    case NOT => "NOT" case NULL => "NULL" case DEFAULT => "DEFAULT"
  }

  /** A word of the grammar, or a part of a statement that holds names, types and values. */
  datatype Token = Key(k: Keyword) | Part(lexemes: seq<Lexeme>)

  function TokenLexemes(t: Token): seq<Lexeme> {
    match t
    case Key(k) => [Word(KeywordText(k))]
    case Part(lexemes) => lexemes
  }

  function Spell(tokens: seq<Token>): seq<Lexeme> {
    if tokens == [] then [] else TokenLexemes(tokens[0]) + Spell(tokens[1..])
  }

  function IfAny(lexemes: seq<Lexeme>): seq<Token> {
    if lexemes == [] then [] else [Part(lexemes)]
  }

  function ClauseTokens(clause: Clause): seq<Token> {
    match clause
    case NotNull => [Key(NOT), Key(NULL)]
    case PrimaryKey => [Part([Word("PRIMARY"), Word("KEY")])]
    case DefaultNull => [Key(DEFAULT), Key(NULL)]
    case DefaultTo(value) => [Key(DEFAULT)] + IfAny(value)
    case Extra(lexemes, _) => IfAny(lexemes)
  }

  function AllClauseTokens(clauses: seq<Clause>): seq<Token> {
    if clauses == [] then [] else ClauseTokens(clauses[0]) + AllClauseTokens(clauses[1..])
  }

  function ColumnWord(keyword: bool): seq<Token> {
    if keyword then [Key(COLUMN)] else []
  }

  function Guard(guard: bool): seq<Token> {
    if guard then [Part([Word("IF")]), Key(NOT), Part([Word("EXISTS")])] else []
  }

  function AlterTable(pre: seq<Lexeme>, table: Ident): seq<Token> {
    [Key(ALTER), Key(TABLE), Part(pre + Spelled(table))]
  }

  /** Names with commas between them. */
  function Listed(ids: seq<Ident>): seq<Lexeme> {
    if ids == [] then []
    else if |ids| == 1 then Spelled(ids[0])
    else Spelled(ids[0]) + [Sep(',')] + Listed(ids[1..])
  }

  function KeyWords(columns: seq<Ident>): seq<Lexeme> {
    [Word("PRIMARY"), Word("KEY"), Sep('(')] + Listed(columns) + [Sep(')')]
  }

  predicate IsWritten(d: Ddl) {
    !d.CreateTable? && !d.Other?
  }

  function Tokens(d: Ddl): seq<Token>
    requires IsWritten(d)
  {
    match d
    case AddColumn(t, keyword, guard, c, sqlType, clauses, around) =>
      AlterTable(around.pre, t) + ([Key(ADD)] + ColumnWord(keyword) + Guard(guard)) +
      ([Part(around.mid + Spelled(c) + sqlType.lexemes)] + AllClauseTokens(clauses) + IfAny(around.post))
    case DropColumn(t, keyword, c, around) =>
      AlterTable(around.pre, t) + ([Key(DROP)] + ColumnWord(keyword)) +
      ([Part(around.mid + Spelled(c))] + IfAny(around.post))
    case DropTable(t, around) => [Key(DROP), Key(TABLE), Part(around.pre + Spelled(t))] + IfAny(around.post)
    case RenameColumn(t, keyword, c, to, around) =>
      AlterTable(around.pre, t) + ([Key(RENAME)] + ColumnWord(keyword)) +
      ([Part(around.mid + Spelled(c)), Key(TO), Part(Spelled(to))] + IfAny(around.post))
    case RenameTable(t, to, around) =>
      AlterTable(around.pre, t) + [Key(RENAME), Key(TO)] + ([Part(Spelled(to))] + IfAny(around.post))
    case SetNotNull(t, keyword, c, around) =>
      AlterTable(around.pre, t) + ([Key(ALTER)] + ColumnWord(keyword) + [Part(around.mid + Spelled(c))]) +
      ([Key(SET), Key(NOT), Key(NULL)] + IfAny(around.post))
    case DropDefault(t, keyword, c, around) =>
      AlterTable(around.pre, t) + ([Key(ALTER)] + ColumnWord(keyword) + [Part(around.mid + Spelled(c))]) +
      ([Key(DROP), Key(DEFAULT)] + IfAny(around.post))
    case AddPrimaryKey(t, columns, around) =>
      AlterTable(around.pre, t) + [Key(ADD), Part(around.mid + KeyWords(columns))] + IfAny(around.post)
  }

  /** The same words and characters, in whatever letter case. */
  predicate Alike(a: seq<Lexeme>, b: seq<Lexeme>) {
    && |a| == |b|
    && forall i :: 0 <= i < |a| ==>
         a[i] == b[i] || (a[i].Word? && b[i].Word? && Upper(a[i].text) == Upper(b[i].text))
  }

  /** The code of a statement is this change, up to white space and letter case; a change without a text reads any. */
  predicate Reads(code: string, d: Ddl) {
    IsWritten(d) ==> Alike(Lex(code), Spell(Tokens(d)))
  }

  lemma AlikeHasRow(a: seq<Lexeme>, b: seq<Lexeme>, words: seq<string>)
    requires Alike(a, b)
    ensures HasRow(a, words) <==> HasRow(b, words)
  {
    forall i | 0 <= i < |a|
      ensures forall w :: Is(a[i], w) <==> Is(b[i], w)
    {
      AlikeIs(a[i], b[i]);
    }
    hide Is;
    forall i: nat
      ensures RowAt(a, words, i) <==> RowAt(b, words, i)
    {
    }
  }

  lemma AlikeIs(a: Lexeme, b: Lexeme)
    requires a == b || (a.Word? && b.Word? && Upper(a.text) == Upper(b.text))
    ensures forall w :: Is(a, w) <==> Is(b, w)
  {
    if a != b {
      var x, y := Upper(a.text), Upper(b.text);
      assert forall i :: 0 <= i < |x| ==> x[i] == UpperChar(a.text[i]) && y[i] == UpperChar(b.text[i]);
    }
  }

  // ---- Rows of keywords -------------------------------------------------------------

  function Words(pattern: seq<Keyword>): (words: seq<string>)
    ensures |words| == |pattern| && forall i :: 0 <= i < |words| ==> words[i] == KeywordText(pattern[i])
  {
    seq(|pattern|, i requires 0 <= i < |pattern| => KeywordText(pattern[i]))
  }

  function Keys(pattern: seq<Keyword>): (tokens: seq<Token>)
    ensures |tokens| == |pattern| && forall i :: 0 <= i < |tokens| ==> tokens[i] == Key(pattern[i])
  {
    seq(|pattern|, i requires 0 <= i < |pattern| => Key(pattern[i]))
  }

  lemma {:induction false} SpellConcat(a: seq<Token>, b: seq<Token>)
    ensures Spell(a + b) == Spell(a) + Spell(b)
  {
    if a == [] {
      assert a + b == b;
    } else {
      assert (a + b)[1..] == a[1..] + b;
      SpellConcat(a[1..], b);
    }
  }

  /** Two keywords differ in length or in their first letter. */
  lemma KeywordsApart(k: Keyword, j: Keyword)
    ensures k != j ==>
      |KeywordText(k)| != |KeywordText(j)| || KeywordText(k)[0] != KeywordText(j)[0]
  {
  }

  lemma KeywordIsKeyword(k: Keyword)
    ensures IsKeyword(KeywordText(k))
  {
  }

  lemma KeywordIs(k: Keyword, j: Keyword)
    ensures IsKeyword(KeywordText(k))
    ensures Is(Word(KeywordText(k)), KeywordText(j)) <==> k == j
  {
    hide KeywordText;
    KeywordIsKeyword(k);
    KeywordsApart(k, j);
    var s, w := KeywordText(k), KeywordText(j);
    assert SameWord(s, w) ==> UpperChar(s[0]) == w[0];
  }

  lemma {:induction false} KeysSpell(pattern: seq<Keyword>)
    ensures |Spell(Keys(pattern))| == |pattern|
    ensures forall i :: 0 <= i < |pattern| ==> Is(Spell(Keys(pattern))[i], KeywordText(pattern[i]))
  {
    hide Is;
    if pattern != [] {
      KeysSpell(pattern[1..]);
      KeywordIs(pattern[0], pattern[0]);
      assert Keys(pattern)[1..] == Keys(pattern[1..]);
    }
  }

  /** Keywords in a row are found, whatever stands around them. */
  lemma KeysAreFound(before: seq<Token>, pattern: seq<Keyword>, after: seq<Token>)
    ensures HasRow(Spell(before + Keys(pattern) + after), Words(pattern))
  {
    hide Is, Spell;
    SpellConcat(before + Keys(pattern), after);
    SpellConcat(before, Keys(pattern));
    KeysSpell(pattern);
    var row := Spell(Keys(pattern));
    assert RowAt(row, Words(pattern), 0);
    RowExtends(row, Spell(after), Words(pattern), 0);
    RowShift(Spell(before), row + Spell(after), Words(pattern), 0);
    assert Spell(before) + (row + Spell(after)) == Spell(before) + row + Spell(after);
  }

  // ---- Soundness, and exactly where it stops -----------------------------------------------

  /** The pattern of a rule, as keywords. */
  function RulePattern(rule: Rule): (pattern: seq<Keyword>)
    ensures pattern != [] && DEFAULT !in pattern
  {
    match rule
    case DropTableRule => [DROP, TABLE]
    case DropColumnRule => [DROP, COLUMN]
    case RenameColumnRule => [RENAME, COLUMN]
    case RenameToRule => [RENAME, TO]
    case SetNotNullRule => [SET, NOT, NULL]
    case AddNotNullRule => [ADD, COLUMN]
  }

  lemma RulePatternText(rule: Rule)
    ensures Pattern(rule) == Words(RulePattern(rule))
  {
  }

  /** The token says the word, by itself or inside a name, a type or a value. */
  predicate Says(t: Token, k: Keyword) {
    match t
    case Key(j) => j == k
    case Part(lexemes) => exists l | l in lexemes :: Is(l, KeywordText(k))
  }

  /** The word DEFAULT stands somewhere in the statement: a default, or part of a name, a type or another clause. */
  predicate SaysDefault(d: Ddl)
    requires IsWritten(d)
  {
    exists t | t in Tokens(d) :: Says(t, DEFAULT)
  }

  lemma {:induction false} SaysExactly(tokens: seq<Token>, k: Keyword)
    ensures HasRow(Spell(tokens), Words([k])) <==> exists t | t in tokens :: Says(t, k)
  {
    hide Is, RowAt;
    WordIsRow(Spell(tokens), k);
    if tokens != [] {
      SaysExactly(tokens[1..], k);
      WordIsRow(Spell(tokens[1..]), k);
      assert tokens == [tokens[0]] + tokens[1..];
      FirstSays(tokens[0], k);
    }
  }

  lemma FirstSays(t: Token, k: Keyword)
    ensures Says(t, k) <==> exists l | l in TokenLexemes(t) :: Is(l, KeywordText(k))
  {
    if t.Key? {
      KeywordIs(t.k, k);
      assert TokenLexemes(t)[0] in TokenLexemes(t);
    }
  }

  lemma WordIsRow(lexemes: seq<Lexeme>, k: Keyword)
    ensures HasRow(lexemes, Words([k])) <==> exists l | l in lexemes :: Is(l, KeywordText(k))
  {
    hide Is;
    if HasRow(lexemes, Words([k])) {
      var i: nat :| RowAt(lexemes, Words([k]), i);
      assert Is(lexemes[i + 0], Words([k])[0]);
    }
    forall i | 0 <= i < |lexemes| && Is(lexemes[i], KeywordText(k))
      ensures RowAt(lexemes, Words([k]), i)
    {
    }
  }

  lemma {:induction false} NotNullIsSaid(clauses: seq<Clause>) returns (before: seq<Token>, after: seq<Token>)
    requires NotNull in clauses
    ensures AllClauseTokens(clauses) == before + Keys([NOT, NULL]) + after
  {
    var rest := AllClauseTokens(clauses[1..]);
    if clauses[0] == NotNull {
      before, after := [], rest;
    } else {
      before, after := NotNullIsSaid(clauses[1..]);
      assert ClauseTokens(clauses[0]) + (before + Keys([NOT, NULL]) + after)
        == ClauseTokens(clauses[0]) + before + Keys([NOT, NULL]) + after;
      before := ClauseTokens(clauses[0]) + before;
    }
  }

  /** The destructive rule a change runs into, if it is written in the words the rule looks for. */
  predicate Hits(rule: Rule, d: Ddl) {
    match rule
    case DropTableRule => d.DropTable?
    case DropColumnRule => d.DropColumn? && d.keyword
    case RenameColumnRule => d.RenameColumn? && d.keyword
    case RenameToRule => d.RenameTable?
    case SetNotNullRule => d.SetNotNull?
    case AddNotNullRule => d.AddColumn? && d.keyword
  }

  lemma KeysOfTwo(x: Keyword, y: Keyword)
    ensures Keys([x, y]) == [Key(x), Key(y)]
  {
  }

  lemma KeysOfThree(x: Keyword, y: Keyword, z: Keyword)
    ensures Keys([x, y, z]) == [Key(x), Key(y), Key(z)]
  {
  }

  lemma AddHitIsThere(d: Ddl) returns (before: seq<Token>, after: seq<Token>)
    requires d.AddColumn? && d.keyword
    ensures Tokens(d) == before + Keys([ADD, COLUMN]) + after
  {
    hide Spelled, AllClauseTokens, Keys, IfAny, Guard, AlterTable;
    KeysOfTwo(ADD, COLUMN);
    before := AlterTable(d.around.pre, d.table);
    var tail := [Part(d.around.mid + Spelled(d.column) + d.sqlType.lexemes)] + AllClauseTokens(d.clauses) +
      IfAny(d.around.post);
    after := Guard(d.guard) + tail;
    assert [Key(ADD)] + [Key(COLUMN)] + Guard(d.guard) == Keys([ADD, COLUMN]) + Guard(d.guard);
    assert before + (Keys([ADD, COLUMN]) + Guard(d.guard)) + tail == before + Keys([ADD, COLUMN]) + after;
  }

  lemma DropHitIsThere(d: Ddl) returns (before: seq<Token>, after: seq<Token>)
    requires d.DropColumn? && d.keyword
    ensures Tokens(d) == before + Keys([DROP, COLUMN]) + after
  {
    hide Spelled, Keys, IfAny, AlterTable;
    KeysOfTwo(DROP, COLUMN);
    before, after := AlterTable(d.around.pre, d.table), [Part(d.around.mid + Spelled(d.column))] + IfAny(d.around.post);
  }

  lemma DropTableHitIsThere(d: Ddl) returns (before: seq<Token>, after: seq<Token>)
    requires d.DropTable?
    ensures Tokens(d) == before + Keys([DROP, TABLE]) + after
  {
    hide Spelled, Keys, IfAny;
    KeysOfTwo(DROP, TABLE);
    before, after := [], [Part(d.around.pre + Spelled(d.table))] + IfAny(d.around.post);
  }

  lemma RenameHitIsThere(d: Ddl) returns (before: seq<Token>, after: seq<Token>)
    requires d.RenameColumn? && d.keyword
    ensures Tokens(d) == before + Keys([RENAME, COLUMN]) + after
  {
    hide Spelled, Keys, IfAny, AlterTable;
    KeysOfTwo(RENAME, COLUMN);
    before := AlterTable(d.around.pre, d.table);
    after := [Part(d.around.mid + Spelled(d.column)), Key(TO), Part(Spelled(d.newName))] + IfAny(d.around.post);
  }

  lemma RenameTableHitIsThere(d: Ddl) returns (before: seq<Token>, after: seq<Token>)
    requires d.RenameTable?
    ensures Tokens(d) == before + Keys([RENAME, TO]) + after
  {
    hide Spelled, Keys, IfAny, AlterTable;
    KeysOfTwo(RENAME, TO);
    before, after := AlterTable(d.around.pre, d.table), [Part(Spelled(d.newName))] + IfAny(d.around.post);
  }

  lemma SetHitIsThere(d: Ddl) returns (before: seq<Token>, after: seq<Token>)
    requires d.SetNotNull?
    ensures Tokens(d) == before + Keys([SET, NOT, NULL]) + after
  {
    hide Spelled, Keys, IfAny, AlterTable, ColumnWord;
    KeysOfThree(SET, NOT, NULL);
    before := AlterTable(d.around.pre, d.table) +
      ([Key(ALTER)] + ColumnWord(d.keyword) + [Part(d.around.mid + Spelled(d.column))]);
    after := IfAny(d.around.post);
  }

  /** The tokens around the words of the rule a change runs into. */
  lemma HitIsThere(rule: Rule, d: Ddl) returns (before: seq<Token>, after: seq<Token>)
    requires IsWritten(d) && Hits(rule, d)
    ensures Tokens(d) == before + Keys(RulePattern(rule)) + after
  {
    hide Tokens, Keys;
    match d {
      case AddColumn(_, _, _, _, _, _, _) => before, after := AddHitIsThere(d);
      case DropColumn(_, _, _, _) => before, after := DropHitIsThere(d);
      case DropTable(_, _) => before, after := DropTableHitIsThere(d);
      case RenameColumn(_, _, _, _, _) => before, after := RenameHitIsThere(d);
      case RenameTable(_, _, _) => before, after := RenameTableHitIsThere(d);
      case SetNotNull(_, _, _, _) => before, after := SetHitIsThere(d);
      case _ =>
    }
  }

  /** A rule that a change runs into is found, whatever the names and the other words are. */
  lemma HitIsFound(rule: Rule, d: Ddl)
    requires IsWritten(d) && Hits(rule, d)
    ensures HasRow(Spell(Tokens(d)), Words(RulePattern(rule)))
  {
    hide Spell, Tokens, HasRow, Keys, RulePattern;
    var before, after := HitIsThere(rule, d);
    KeysAreFound(before, RulePattern(rule), after);
  }

  lemma NotNullIsFound(d: Ddl)
    requires d.AddColumn? && NotNull in d.clauses
    ensures HasRow(Spell(Tokens(d)), Words([NOT, NULL]))
  {
    hide Spell, Spelled, AllClauseTokens, HasRow, Keys;
    var before, after := NotNullIsSaid(d.clauses);
    var front := AlterTable(d.around.pre, d.table) + ([Key(ADD)] + ColumnWord(d.keyword) + Guard(d.guard));
    var part := [Part(d.around.mid + Spelled(d.column) + d.sqlType.lexemes)];
    assert Tokens(d) == front + part + before + Keys([NOT, NULL]) + (after + IfAny(d.around.post));
    KeysAreFound(front + part + before, [NOT, NULL], after + IfAny(d.around.post));
  }

  /** The rules, read on the words of a change. */
  lemma CleanWords(d: Ddl, code: string)
    requires IsWritten(d) && Reads(code, d)
    ensures Clean(code) <==>
      !HasDestructiveRow(Spell(Tokens(d))) && !HasRequiredColumnRows(Spell(Tokens(d)))
  {
    hide Clean, HasRow, Alike, Spell, Pattern, DESTRUCTIVE_RULES;
    CleanExactly(code);
    var a, b := Lex(code), Spell(Tokens(d));
    forall words
      ensures HasRow(a, words) <==> HasRow(b, words)
    {
      AlikeHasRow(a, b, words);
    }
  }

  lemma RequiredWords(d: Ddl)
    requires d.AddColumn? && d.keyword && NotNull in d.clauses
    ensures HasRequiredColumnRows(Spell(Tokens(d))) <==> !SaysDefault(d)
  {
    hide HasRow, Spell, Tokens, Says;
    HitIsFound(AddNotNullRule, d);
    NotNullIsFound(d);
    SaysExactly(Tokens(d), DEFAULT);
    assert Words([ADD, COLUMN]) == ADD_COLUMN && Words([NOT, NULL]) == NOT_NULL;
    assert Words([Keyword.DEFAULT]) == MigrationLint.DEFAULT;
  }

  lemma DestructiveWords(rule: Rule, d: Ddl)
    requires IsWritten(d) && Hits(rule, d) && rule != AddNotNullRule
    ensures HasDestructiveRow(Spell(Tokens(d)))
  {
    hide HasRow, Spell, Tokens, RulePattern, Pattern;
    HitIsFound(rule, d);
    RulePatternText(rule);
    RuleIsListed(rule);
  }

  lemma RuleIsListed(rule: Rule)
    requires rule != AddNotNullRule
    ensures exists i :: 0 <= i < |DESTRUCTIVE_RULES| && DESTRUCTIVE_RULES[i] == rule
  {
    var i := match rule
      case DropTableRule => 0
      case DropColumnRule => 1
      case RenameColumnRule => 2
      case RenameToRule => 3
      case _ => 4;
    assert DESTRUCTIVE_RULES[i] == rule;
  }

  /** A destructive or required-column change in the words the rules look for, with no DEFAULT to excuse it. */
  predicate Named(d: Ddl)
    requires IsWritten(d)
  {
    d.DropTable? || d.RenameTable? || d.SetNotNull? ||
    ((d.DropColumn? || d.RenameColumn?) && d.keyword) ||
    (d.AddColumn? && d.keyword && NotNull in d.clauses && !SaysDefault(d))
  }

  /** The linter objects to every change its rules name, whatever the names, types and other words are. */
  lemma NamedIsFlagged(d: Ddl, code: string)
    requires IsWritten(d) && Reads(code, d) && Named(d)
    ensures !Clean(code)
  {
    hide Clean, Reads, Tokens, Spell, SaysDefault, HasDestructiveRow, HasRequiredColumnRows;
    CleanWords(d, code);
    if d.AddColumn? {
      RequiredWords(d);
    } else {
      DestructiveWords(
        match d
          case DropTable(_, _) => DropTableRule
          case RenameTable(_, _, _) => RenameToRule
          case SetNotNull(_, _, _, _) => SetNotNullRule
          case DropColumn(_, _, _, _) => DropColumnRule
          case _ => RenameColumnRule, d);
    }
  }

  /**
   * A change that can break a query and is not named: it leaves out the
   * optional word COLUMN; it adds a required column and either says DEFAULT
   * somewhere (a name, a type, a NULL default) or does not say NOT NULL; or it
   * makes a column required by dropping its default or making it a primary key.
   */
  predicate Escapes(d: Ddl)
    requires IsWritten(d)
  {
    || (d.DropColumn? && !d.keyword)
    || (d.RenameColumn? && !d.keyword && NameOf(d.newName) != NameOf(d.column))
    || (d.AddColumn? && MustBeGiven(d.sqlType, d.clauses) &&
        (!d.keyword || NotNull !in d.clauses || SaysDefault(d)))
    || d.DropDefault?
    || (d.AddPrimaryKey? && d.columns != [])
  }

  lemma EscapesBreaks(d: Ddl) returns (schema: Schema)
    requires IsWritten(d) && Escapes(d)
    ensures BreaksSomeQuery(schema, d)
  {
    hide NameOf, Defined, MustBeGiven, SaysDefault, BreaksSomeQuery;
    var t := NameOf(d.table);
    schema := map[t := match d
      case AddColumn(_, _, _, _, _, _, _) => map[]
      case DropDefault(_, _, column, _) => map[NameOf(column) := Column(true, true)]
      case AddPrimaryKey(_, columns, _) => map c | c in NamesOf(columns) :: Column(false, false)
      case DropColumn(_, _, column, _) => map[NameOf(column) := Column(false, false)]
      case RenameColumn(_, _, column, _, _) => map[NameOf(column) := Column(false, false)]
      case _ => map[]];
    if d.AddPrimaryKey? {
      assert NameOf(d.columns[0]) in NamesOf(d.columns);
    }
    BreaksExactly(schema, d);
  }

  lemma BreaksIsNamedOrEscapes(schema: Schema, d: Ddl)
    requires IsWritten(d) && Breaks(schema, d)
    ensures Named(d) || Escapes(d)
  {
    if d.AddColumn? {
      GivenExactly(d.sqlType, d.clauses);
    }
    hide NameOf, Defined, SaysDefault, MustBeGiven;
  }

  /** A statement the linter finds clean can break a query exactly when it is one of those that escape. */
  lemma CleanButBreaking(d: Ddl, code: string)
    requires IsWritten(d) && Reads(code, d) && Clean(code)
    ensures Escapes(d) <==> exists schema :: BreaksSomeQuery(schema, d)
  {
    hide Clean, Reads, BreaksSomeQuery, Breaks, Escapes, Named;
    if Escapes(d) {
      var schema := EscapesBreaks(d);
    }
    forall schema | BreaksSomeQuery(schema, d)
      ensures Escapes(d)
    {
      BreaksExactly(schema, d);
      BreaksIsNamedOrEscapes(schema, d);
      if Named(d) {
        NamedIsFlagged(d, code);
      }
    }
  }

  // ---- No objection to anything else -------------------------------------------------------

  /** No name, type, value or further clause holds a keyword of the rules, DEFAULT apart. */
  predicate Calm(tokens: seq<Token>) {
    forall t | t in tokens && t.Part? :: CalmPart(t.lexemes)
  }

  predicate CalmPart(lexemes: seq<Lexeme>) {
    lexemes != [] && forall l, k: Keyword | l in lexemes && k != DEFAULT :: !Is(l, KeywordText(k))
  }

  predicate KeysAt(tokens: seq<Token>, pattern: seq<Keyword>, i: nat) {
    i + |pattern| <= |tokens| && forall k :: 0 <= k < |pattern| ==> tokens[i + k] == Key(pattern[k])
  }

  ghost predicate HasKeys(tokens: seq<Token>, pattern: seq<Keyword>) {
    exists i: nat :: KeysAt(tokens, pattern, i)
  }

  lemma TokenHead(t: Token, k: Keyword)
    requires t.Part? ==> CalmPart(t.lexemes)
    requires k != DEFAULT
    ensures TokenLexemes(t) != [] && (Is(TokenLexemes(t)[0], KeywordText(k)) <==> t == Key(k))
  {
    if t.Key? {
      KeywordIs(t.k, k);
    } else {
      assert t.lexemes[0] in t.lexemes;
    }
  }

  /** Among calm names, keywords that head the lexemes head the tokens. */
  lemma {:induction false} HeadRow(tokens: seq<Token>, pattern: seq<Keyword>)
    requires Calm(tokens) && pattern != [] && DEFAULT !in pattern
    requires RowAt(Spell(tokens), Words(pattern), 0)
    ensures KeysAt(tokens, pattern, 0)
    decreases |pattern|
  {
    hide Is, CalmPart;
    assert Is(Spell(tokens)[0 + 0], Words(pattern)[0]);
    assert tokens != [];
    var t := tokens[0];
    TokenHead(t, pattern[0]);
    assert Spell(tokens) == [Word(KeywordText(pattern[0]))] + Spell(tokens[1..]);
    if |pattern| > 1 {
      assert Words(pattern)[1..] == Words(pattern[1..]);
      RowStep(Spell(tokens)[0], Spell(tokens[1..]), Words(pattern));
      HeadRow(tokens[1..], pattern[1..]);
      forall k | 0 <= k < |pattern|
        ensures tokens[0 + k] == Key(pattern[k])
      {
        assert k > 0 ==> tokens[1..][0 + (k - 1)] == Key(pattern[1..][k - 1]);
      }
    }
  }

  lemma {:induction false} RowIsKeys(tokens: seq<Token>, pattern: seq<Keyword>, i: nat)
    requires Calm(tokens) && pattern != [] && DEFAULT !in pattern
    requires RowAt(Spell(tokens), Words(pattern), i)
    ensures HasKeys(tokens, pattern)
    decreases |tokens|
  {
    hide Is, CalmPart;
    if i == 0 {
      HeadRow(tokens, pattern);
      assert KeysAt(tokens, pattern, 0);
    } else {
      assert Is(Spell(tokens)[i + 0], Words(pattern)[0]);
      var first := TokenLexemes(tokens[0]);
      assert Spell(tokens) == first + Spell(tokens[1..]);
      CalmHasNone(tokens[0], pattern[0]);
      RowShift(first, Spell(tokens[1..]), Words(pattern), i - |first|);
      RowIsKeys(tokens[1..], pattern, i - |first|);
      var k: nat :| KeysAt(tokens[1..], pattern, k);
      forall m | 0 <= m < |pattern|
        ensures tokens[k + 1 + m] == Key(pattern[m])
      {
        assert tokens[1..][k + m] == Key(pattern[m]);
      }
      assert KeysAt(tokens, pattern, k + 1);
    }
  }

  lemma CalmHasNone(t: Token, k: Keyword)
    requires t.Part? ==> CalmPart(t.lexemes)
    requires k != DEFAULT
    ensures forall i :: 0 < i < |TokenLexemes(t)| ==> !Is(TokenLexemes(t)[i], KeywordText(k))
  {
    hide Is;
    forall i | 0 < i < |TokenLexemes(t)|
      ensures !Is(TokenLexemes(t)[i], KeywordText(k))
    {
      assert TokenLexemes(t)[i] in TokenLexemes(t);
    }
  }

  /** In a change with calm names the only keywords in a row are those of its grammar. */
  lemma CalmRows(tokens: seq<Token>, pattern: seq<Keyword>)
    requires Calm(tokens) && pattern != [] && DEFAULT !in pattern
    ensures HasRow(Spell(tokens), Words(pattern)) ==> HasKeys(tokens, pattern)
  {
    hide RowAt, Calm, HasKeys;
    if HasRow(Spell(tokens), Words(pattern)) {
      var i: nat :| RowAt(Spell(tokens), Words(pattern), i);
      RowIsKeys(tokens, pattern, i);
    }
  }

  lemma {:induction false} ClauseKeys(clauses: seq<Clause>)
    ensures forall k :: Key(k) in AllClauseTokens(clauses) ==> k in [NOT, NULL, Keyword.DEFAULT]
    ensures Key(NOT) in AllClauseTokens(clauses) ==> NotNull in clauses
  {
    if clauses != [] {
      ClauseKeys(clauses[1..]);
      assert forall t :: t in AllClauseTokens(clauses) ==>
        t in ClauseTokens(clauses[0]) || t in AllClauseTokens(clauses[1..]);
    }
  }

  /** The tokens of a new column before its name, and after. */
  function AddFront(d: Ddl): (tokens: seq<Token>)
    requires d.AddColumn?
    ensures |tokens| >= 4 && tokens[..4] == [Key(ALTER), Key(TABLE), Part(d.around.pre + Spelled(d.table)), Key(ADD)]
    ensures tokens[4..] == ColumnWord(d.keyword) + Guard(d.guard)
  {
    AlterTable(d.around.pre, d.table) + ([Key(ADD)] + ColumnWord(d.keyword) + Guard(d.guard))
  }

  /** In the statement of a new column a keyword other than NOT, NULL and DEFAULT stands before the column's name. */
  lemma AddKeys(d: Ddl, i: nat)
    requires d.AddColumn? && i < |Tokens(d)| && Tokens(d)[i].Key?
    ensures i < |AddFront(d)| ==> Tokens(d)[i] == AddFront(d)[i]
    ensures i >= |AddFront(d)| ==> Tokens(d)[i] in AllClauseTokens(d.clauses)
    ensures i >= |AddFront(d)| ==> Tokens(d)[i].k in [NOT, NULL, Keyword.DEFAULT]
  {
    hide AddFront, AllClauseTokens, Spelled;
    var part, clauses := Part(d.around.mid + Spelled(d.column) + d.sqlType.lexemes), AllClauseTokens(d.clauses);
    assert Tokens(d) == AddFront(d) + ([part] + clauses + IfAny(d.around.post)) by {
      AddTokens(d);
    }
    ClauseKeys(d.clauses);
    if i >= |AddFront(d)| {
      var t := ([part] + clauses + IfAny(d.around.post))[i - |AddFront(d)|];
      assert t in clauses;
    }
  }

  lemma AddTokens(d: Ddl)
    requires d.AddColumn?
    ensures Tokens(d) == AddFront(d) + ([Part(d.around.mid + Spelled(d.column) + d.sqlType.lexemes)] +
      AllClauseTokens(d.clauses) + IfAny(d.around.post))
  {
    hide Spelled, AllClauseTokens;
  }

  lemma AddHits(d: Ddl, rule: Rule, i: nat)
    requires d.AddColumn? && KeysAt(Tokens(d), RulePattern(rule), i)
    ensures rule == AddNotNullRule && d.keyword
  {
    hide Tokens, Spelled, AllClauseTokens, AddFront;
    var pattern := RulePattern(rule);
    assert Tokens(d)[i + 0] == Key(pattern[0]) && Tokens(d)[i + 1] == Key(pattern[1]);
    AddKeys(d, i);
    AddKeys(d, i + 1);
    var front := AddFront(d);
    assert forall k :: 0 <= k < 4 ==> front[k] == front[..4][k];
    assert forall k :: 4 <= k < |front| ==> front[k] == front[4..][k - 4];
  }

  lemma NotNullIsWritten(d: Ddl, i: nat)
    requires d.AddColumn? && KeysAt(Tokens(d), [NOT, NULL], i)
    ensures NotNull in d.clauses
  {
    hide Tokens, Spelled, AllClauseTokens, AddFront;
    assert Tokens(d)[i + 0] == Key([NOT, NULL][0]) && Tokens(d)[i + 1] == Key([NOT, NULL][1]);
    AddKeys(d, i);
    AddKeys(d, i + 1);
    ClauseKeys(d.clauses);
    var front := AddFront(d);
    assert forall k :: 0 <= k < 4 ==> front[k] == front[..4][k];
    assert forall k :: 4 <= k < |front| ==> front[k] == front[4..][k - 4];
  }

  lemma DropHits(d: Ddl, rule: Rule, i: nat)
    requires (d.DropColumn? || d.DropTable?) && KeysAt(Tokens(d), RulePattern(rule), i)
    ensures Hits(rule, d)
  {
    hide Spelled;
    var tokens, pattern := Tokens(d), RulePattern(rule);
    assert tokens[i + 0] == Key(pattern[0]) && tokens[i + 1] == Key(pattern[1]);
  }

  lemma RenameColumnHits(d: Ddl, rule: Rule, i: nat)
    requires d.RenameColumn? && KeysAt(Tokens(d), RulePattern(rule), i)
    ensures Hits(rule, d)
  {
    hide Spelled;
    var tokens, pattern := Tokens(d), RulePattern(rule);
    assert tokens[i + 0] == Key(pattern[0]) && tokens[i + 1] == Key(pattern[1]);
  }

  lemma RenameTableHits(d: Ddl, rule: Rule, i: nat)
    requires d.RenameTable? && KeysAt(Tokens(d), RulePattern(rule), i)
    ensures Hits(rule, d)
  {
    hide Spelled;
    var tokens, pattern := Tokens(d), RulePattern(rule);
    assert tokens[i + 0] == Key(pattern[0]) && tokens[i + 1] == Key(pattern[1]);
  }

  lemma SetHits(d: Ddl, rule: Rule, i: nat)
    requires d.SetNotNull? && KeysAt(Tokens(d), RulePattern(rule), i)
    ensures Hits(rule, d)
  {
    hide Spelled;
    var tokens, pattern := Tokens(d), RulePattern(rule);
    assert tokens[i + 0] == Key(pattern[0]) && tokens[i + 1] == Key(pattern[1]);
  }

  lemma KeysAtStart(tokens: seq<Token>, pattern: seq<Keyword>, i: nat)
    requires |pattern| >= 2
    ensures KeysAt(tokens, pattern, i) ==>
      i + 1 < |tokens| && tokens[i] == Key(pattern[0]) && tokens[i + 1] == Key(pattern[1])
  {
    if KeysAt(tokens, pattern, i) {
      assert tokens[i + 0] == Key(pattern[0]) && tokens[i + 1] == Key(pattern[1]);
    }
  }

  lemma DropDefaultIsFree(d: Ddl, rule: Rule, i: nat)
    requires d.DropDefault?
    ensures !KeysAt(Tokens(d), RulePattern(rule), i)
  {
    hide Spelled, KeysAt;
    KeysAtStart(Tokens(d), RulePattern(rule), i);
  }

  lemma PrimaryKeyIsFree(d: Ddl, rule: Rule, i: nat)
    requires d.AddPrimaryKey?
    ensures !KeysAt(Tokens(d), RulePattern(rule), i)
  {
    hide Spelled, KeyWords, KeysAt;
    KeysAtStart(Tokens(d), RulePattern(rule), i);
  }

  /** A rule's keywords stand in a row of a change's tokens only where the change runs into it. */
  lemma KeysAreHits(d: Ddl, rule: Rule)
    requires IsWritten(d) && HasKeys(Tokens(d), RulePattern(rule))
    ensures Hits(rule, d)
  {
    hide Tokens, RulePattern, KeysAt;
    var i: nat :| KeysAt(Tokens(d), RulePattern(rule), i);
    match d {
      case AddColumn(_, _, _, _, _, _, _) => AddHits(d, rule, i);
      case RenameColumn(_, _, _, _, _) => RenameColumnHits(d, rule, i);
      case RenameTable(_, _, _) => RenameTableHits(d, rule, i);
      case SetNotNull(_, _, _, _) => SetHits(d, rule, i);
      case DropDefault(_, _, _, _) => DropDefaultIsFree(d, rule, i);
      case AddPrimaryKey(_, _, _) => PrimaryKeyIsFree(d, rule, i);
      case _ => DropHits(d, rule, i);
    }
  }

  /** Among calm names, types and values the linter objects to a change exactly when the rules name it. */
  lemma FlaggedExactly(d: Ddl, code: string)
    requires IsWritten(d) && Reads(code, d) && Calm(Tokens(d))
    ensures Clean(code) <==> !Named(d)
  {
    hide Clean, Reads, Tokens, Spell, HasRow, HasKeys, SaysDefault, Calm, RulePattern, Pattern, Words,
         DESTRUCTIVE_RULES;
    if Named(d) {
      NamedIsFlagged(d, code);
    } else {
      CleanWords(d, code);
      forall i | 0 <= i < |DESTRUCTIVE_RULES|
        ensures !HasRow(Spell(Tokens(d)), Pattern(DESTRUCTIVE_RULES[i]))
      {
        NotHit(d, DESTRUCTIVE_RULES[i]) by {
          ListedIsDestructive(i);
        }
      }
      NotRequired(d);
    }
  }

  lemma ListedIsDestructive(i: nat)
    requires i < |DESTRUCTIVE_RULES|
    ensures DESTRUCTIVE_RULES[i] != AddNotNullRule
  {
  }

  lemma NotHit(d: Ddl, rule: Rule)
    requires IsWritten(d) && Calm(Tokens(d)) && !Named(d) && rule != AddNotNullRule
    ensures !HasRow(Spell(Tokens(d)), Pattern(rule))
  {
    hide Tokens, Spell, HasRow, HasKeys, SaysDefault, Calm, RulePattern, Pattern, Words;
    RulePatternText(rule);
    CalmRows(Tokens(d), RulePattern(rule));
    if HasKeys(Tokens(d), RulePattern(rule)) {
      KeysAreHits(d, rule);
    }
  }

  lemma NotRequired(d: Ddl)
    requires IsWritten(d) && Calm(Tokens(d)) && !Named(d)
    ensures !HasRequiredColumnRows(Spell(Tokens(d)))
  {
    hide Tokens, Spell, HasRow, SaysDefault, Calm, KeysAt;
    assert Words([ADD, COLUMN]) == ADD_COLUMN && Words([NOT, NULL]) == NOT_NULL;
    CalmRows(Tokens(d), [ADD, COLUMN]);
    CalmRows(Tokens(d), [NOT, NULL]);
    if HasRow(Spell(Tokens(d)), ADD_COLUMN) && HasRow(Spell(Tokens(d)), NOT_NULL) {
      KeysAreHits(d, AddNotNullRule);
      var i: nat :| KeysAt(Tokens(d), [NOT, NULL], i);
      NotNullIsWritten(d, i);
      RequiredWords(d);
    }
  }

  /** With calm names, a change lints clean and can break a query exactly when it is one of those that escape. */
  lemma EscapesExactly(d: Ddl, code: string)
    requires IsWritten(d) && Reads(code, d) && Calm(Tokens(d))
    ensures Clean(code) && (exists schema :: BreaksSomeQuery(schema, d)) <==> Escapes(d)
  {
    hide Clean, Reads, Calm, Tokens, SaysDefault, BreaksSomeQuery;
    FlaggedExactly(d, code);
    if Clean(code) {
      CleanButBreaking(d, code);
    }
  }

  // ---- Statements that escape ----------------------------------------------------------------

  function Spaced(texts: seq<string>): string {
    if texts == [] then ""
    else if |texts| == 1 then texts[0]
    else texts[0] + " " + Spaced(texts[1..])
  }

  function LexAll(texts: seq<string>): seq<Lexeme> {
    if texts == [] then [] else Lex(texts[0]) + LexAll(texts[1..])
  }

  lemma {:induction false} LexSpaced(texts: seq<string>)
    ensures Lex(Spaced(texts)) == LexAll(texts)
  {
    hide Lex;
    if texts == [] {
      LexSpaces("");
    } else {
      LexSpaced(texts[1..]);
      LexAroundSpace(texts[0], Spaced(texts[1..]));
    }
  }

  lemma LexWord(w: string)
    requires w != "" && forall i :: 0 <= i < |w| ==> IsWord(w[i])
    ensures Lex(w) == [Word(w)]
  {
    assert WordEnd(w, 1) == |w|;
    assert w[..|w|] == w && w[|w|..] == "";
  }

  /** A new column of `t` with nothing written that does not have to be. */
  function NewColumn(column: Ident, typeName: string, clauses: seq<Clause>): Ddl {
    AddColumn(Bare("t"), true, false, column, SqlType([Word(typeName)], false, false), clauses, Around([], [], []))
  }

  /** No keyword of the rules has one letter, or seven, but DEFAULT. */
  lemma OddWordIsCalm(l: Lexeme, k: Keyword)
    requires l.Word? ==> |l.text| in [1, 7]
    requires k != DEFAULT
    ensures !Is(l, KeywordText(k))
  {
  }

  lemma OddWordsAreCalm(lexemes: seq<Lexeme>)
    requires lexemes != [] && forall l :: l in lexemes && l.Word? ==> |l.text| in [1, 7]
    ensures CalmPart(lexemes)
  {
    hide Is;
    forall l, k: Keyword | l in lexemes && k != DEFAULT
      ensures !Is(l, KeywordText(k))
    {
      OddWordIsCalm(l, k);
    }
  }

  lemma LexQuoted()
    ensures Lex("\"default\"") == Spelled(Quoted("default")) == [Sep('\"'), Word("default"), Sep('\"')]
  {
    LexWord("default");
    LexConcat("\"", "default" + "\"");
    LexConcat("default", "\"");
    assert Lex("\"") == [Sep('\"')] + Lex("\""[1..]);
    assert "\"" + ("default" + "\"") == "\"default\"";
  }

  lemma {:induction false} AgreeingTexts(texts: seq<string>, tokens: seq<Token>)
    requires |texts| == |tokens| && forall i :: 0 <= i < |texts| ==> Lex(texts[i]) == TokenLexemes(tokens[i])
    ensures LexAll(texts) == Spell(tokens)
  {
    hide Lex, TokenLexemes;
    if texts != [] {
      AgreeingTexts(texts[1..], tokens[1..]);
    }
  }

  /** A text written token by token reads as its change. */
  lemma WrittenReads(d: Ddl, texts: seq<string>, tokens: seq<Token>)
    requires IsWritten(d) && Tokens(d) == tokens && |texts| == |tokens|
    requires forall i :: 0 <= i < |texts| ==> Lex(texts[i]) == TokenLexemes(tokens[i])
    ensures Reads(Spaced(texts), d)
  {
    hide Lex, TokenLexemes, Tokens, Spaced;
    LexSpaced(texts);
    AgreeingTexts(texts, tokens);
  }

  lemma KeywordLexes(k: Keyword)
    ensures Lex(KeywordText(k)) == TokenLexemes(Key(k))
  {
    LexWord(KeywordText(k));
  }

  /** A change of `t` that escapes, written in words that are no keywords, is clean and breaks a query. */
  lemma CalmEscape(d: Ddl, code: string)
    requires IsWritten(d) && Reads(code, d) && Calm(Tokens(d)) && Escapes(d)
    ensures Clean(code) && exists schema :: BreaksSomeQuery(schema, d)
  {
    hide Clean, Reads, Calm, Tokens, Escapes, BreaksSomeQuery;
    EscapesExactly(d, code);
  }

  lemma NewColumnTokens(column: Ident, typeName: string, clauses: seq<Clause>)
    ensures Tokens(NewColumn(column, typeName, clauses)) ==
      [Key(ALTER), Key(TABLE), Part([Word("t")]), Key(ADD), Key(COLUMN), Part(Spelled(column) + [Word(typeName)])] +
      AllClauseTokens(clauses)
  {
    hide Spelled, AllClauseTokens;
    NoneBefore(Spelled(column));
    assert Spelled(Bare("t")) == [Word("t")] && [] + Spelled(Bare("t")) == [Word("t")] by {
      OneWord("t");
    }
  }

  lemma NoneBefore(lexemes: seq<Lexeme>)
    ensures [] + lexemes == lexemes
  {
  }

  lemma OneWord(name: string)
    ensures Spelled(Bare(name)) == [Word(name)] && [] + [Word(name)] == [Word(name)]
  {
  }

  /** A new column in calm words, with clauses that are keywords alone. */
  lemma NewColumnIsCalm(column: Ident, typeName: string, clauses: seq<Clause>)
    requires CalmPart(Spelled(column) + [Word(typeName)])
    requires forall t :: t in AllClauseTokens(clauses) ==> t.Key?
    ensures Calm(Tokens(NewColumn(column, typeName, clauses)))
  {
    hide Spelled, AllClauseTokens, CalmPart, Tokens;
    NewColumnTokens(column, typeName, clauses);
    OddWordsAreCalm([Word("t")]);
  }

  lemma NewColumnReads(column: Ident, typeName: string, clauses: seq<Clause>, part: string, more: seq<string>)
    requires Lex(part) == Spelled(column) + [Word(typeName)]
    requires |more| == |AllClauseTokens(clauses)|
    requires forall i :: 0 <= i < |more| ==>
      AllClauseTokens(clauses)[i].Key? && more[i] == KeywordText(AllClauseTokens(clauses)[i].k)
    ensures Reads(Spaced(["ALTER", "TABLE", "t", "ADD", "COLUMN", part] + more), NewColumn(column, typeName, clauses))
  {
    hide Spelled, AllClauseTokens, Tokens, Lex, Spaced, Reads;
    var texts := ["ALTER", "TABLE", "t", "ADD", "COLUMN", part] + more;
    var tokens := [Key(ALTER), Key(TABLE), Part([Word("t")]), Key(ADD), Key(COLUMN),
                   Part(Spelled(column) + [Word(typeName)])] + AllClauseTokens(clauses);
    NewColumnTokens(column, typeName, clauses);
    LexWord("t");
    forall i | 0 <= i < |texts| && tokens[i].Key?
      ensures Lex(texts[i]) == TokenLexemes(tokens[i])
    {
      KeywordLexes(tokens[i].k);
    }
    WrittenReads(NewColumn(column, typeName, clauses), texts, tokens);
  }

  lemma ClausesSpelled()
    ensures AllClauseTokens([NotNull]) == [Key(NOT), Key(NULL)]
    ensures AllClauseTokens([DefaultNull, NotNull]) == [Key(Keyword.DEFAULT), Key(NULL), Key(NOT), Key(NULL)]
  {
    assert AllClauseTokens([NotNull][1..]) == [];
    assert [DefaultNull, NotNull][1..] == [NotNull];
  }

  lemma DefaultIs()
    ensures Is(Word("default"), KeywordText(Keyword.DEFAULT))
  {
  }

  /** A required column whose quoted name is `default` lints clean and breaks the previous release's inserts. */
  lemma QuotedDefaultEscapes()
    ensures
      var d := NewColumn(Quoted("default"), "boolean", [NotNull]);
      var code := Spaced(["ALTER", "TABLE", "t", "ADD", "COLUMN", "\"default\" boolean", "NOT", "NULL"]);
      Reads(code, d) && Clean(code) && exists schema :: BreaksSomeQuery(schema, d)
  {
    hide Clean, Lex, BreaksSomeQuery, Spaced, Calm, CalmPart, Reads, Tokens, AllClauseTokens, Is, Spelled;
    var column := Quoted("default");
    var d, part := NewColumn(column, "boolean", [NotNull]), Spelled(column) + [Word("boolean")];
    ClausesSpelled();
    QuotedLexes();
    OddWordsAreCalm(part);
    NewColumnIsCalm(column, "boolean", [NotNull]);
    NewColumnReads(column, "boolean", [NotNull], "\"default\" boolean", ["NOT", "NULL"]);
    assert ["ALTER", "TABLE", "t", "ADD", "COLUMN", "\"default\" boolean"] + ["NOT", "NULL"]
      == ["ALTER", "TABLE", "t", "ADD", "COLUMN", "\"default\" boolean", "NOT", "NULL"];
    NewColumnTokens(column, "boolean", [NotNull]);
    DefaultIs();
    assert part[1] == Word("default") && Tokens(d)[5] == Part(part);
    assert Says(Part(part), Keyword.DEFAULT) && Part(part) in Tokens(d);
    CalmEscape(d, Spaced(["ALTER", "TABLE", "t", "ADD", "COLUMN", "\"default\" boolean", "NOT", "NULL"]));
  }

  lemma QuotedLexes()
    ensures Lex("\"default\" boolean") == Spelled(Quoted("default")) + [Word("boolean")]
    ensures Spelled(Quoted("default")) == [Sep('\"'), Word("default"), Sep('\"')]
  {
    hide Lex, Spelled;
    LexQuoted();
    LexWord("boolean");
    LexAroundSpace("\"default\"", "boolean");
    assert "\"default\"" + " " + "boolean" == "\"default\" boolean";
  }

  lemma PlainLexes()
    ensures Lex("c integer") == Spelled(Bare("c")) + [Word("integer")]
    ensures Spelled(Bare("c")) == [Word("c")]
  {
    hide Lex;
    LexWord("c");
    LexWord("integer");
    LexAroundSpace("c", "integer");
    assert "c" + " " + "integer" == "c integer";
  }

  /** So does a required column whose default is NULL. */
  lemma NullDefaultEscapes()
    ensures
      var d := NewColumn(Bare("c"), "integer", [DefaultNull, NotNull]);
      var code := Spaced(["ALTER", "TABLE", "t", "ADD", "COLUMN", "c integer", "DEFAULT", "NULL", "NOT", "NULL"]);
      Reads(code, d) && Clean(code) && exists schema :: BreaksSomeQuery(schema, d)
  {
    hide Clean, Lex, BreaksSomeQuery, Spaced, Calm, CalmPart, Reads, Tokens, AllClauseTokens, Is, Spelled;
    var d, part := NewColumn(Bare("c"), "integer", [DefaultNull, NotNull]), Spelled(Bare("c")) + [Word("integer")];
    var more := ["DEFAULT", "NULL", "NOT", "NULL"];
    ClausesSpelled();
    PlainLexes();
    OddWordsAreCalm(part);
    NewColumnIsCalm(Bare("c"), "integer", [DefaultNull, NotNull]);
    NewColumnReads(Bare("c"), "integer", [DefaultNull, NotNull], "c integer", more);
    assert ["ALTER", "TABLE", "t", "ADD", "COLUMN", "c integer"] + more
      == ["ALTER", "TABLE", "t", "ADD", "COLUMN", "c integer", "DEFAULT", "NULL", "NOT", "NULL"];
    NewColumnTokens(Bare("c"), "integer", [DefaultNull, NotNull]);
    assert Tokens(d)[6] == Key(Keyword.DEFAULT) && Says(Tokens(d)[6], Keyword.DEFAULT);
    CalmEscape(d, Spaced(["ALTER", "TABLE", "t", "ADD", "COLUMN", "c integer", "DEFAULT", "NULL", "NOT", "NULL"]));
  }

  // ---- Files and releases ----------------------------------------------------------------------

  /** The text of a migration file, and what its statements do. */
  datatype File = File(sql: string, changes: seq<Ddl>)

  /** Statement by statement, the code of the file is its changes. */
  predicate ReadsFile(file: File) {
    var statements := SplitMigrationStatements(file.sql);
    |statements| == |file.changes| &&
    forall i :: 0 <= i < |statements| ==> Reads(StripSqlComments(statements[i]), file.changes[i])
  }

  predicate NoneEscapes(changes: seq<Ddl>) {
    forall i :: 0 <= i < |changes| && IsWritten(changes[i]) ==> !Escapes(changes[i])
  }

  /** The file, in the usual layout, is linted under a tag that is not grandfathered, and nothing is found. */
  ghost predicate LintsClean(grandfathered: set<string>, file: File) {
    && WellLaid(file.sql) && ReadsFile(file)
    && exists tag :: tag !in grandfathered && Lint(grandfathered, tag, file.sql) == []
  }

  /** In a file that lints clean a change can break a query exactly when it escapes. */
  lemma CleanChangeExactly(grandfathered: set<string>, file: File, i: nat)
    requires LintsClean(grandfathered, file) && i < |file.changes|
    ensures (exists schema :: BreaksSomeQuery(schema, file.changes[i])) <==>
      IsWritten(file.changes[i]) && Escapes(file.changes[i])
  {
    hide Lint, Clean, Reads, Escapes, BreaksSomeQuery, StripSqlComments, SplitMigrationStatements, WellLaid;
    var tag :| tag !in grandfathered && Lint(grandfathered, tag, file.sql) == [];
    var d := file.changes[i];
    if IsWritten(d) {
      CleanFileHasCleanStatements(grandfathered, tag, file.sql, i);
      CleanButBreaking(d, StripSqlComments(SplitMigrationStatements(file.sql)[i]));
    } else {
      forall schema
        ensures !BreaksSomeQuery(schema, d)
      {
        BreaksExactly(schema, d);
      }
    }
  }

  function ApplyAll(schema: Schema, changes: seq<Ddl>): Schema {
    if changes == [] then schema else Apply(ApplyAll(schema, changes[..|changes| - 1]), changes[|changes| - 1])
  }

  function ApplyFiles(schema: Schema, files: seq<File>): Schema {
    if files == [] then schema else ApplyAll(ApplyFiles(schema, files[..|files| - 1]), files[|files| - 1].changes)
  }

  lemma {:induction false} FileKeepsQueries(
      grandfathered: set<string>, file: File, count: nat, schema: Schema, q: Query)
    requires LintsClean(grandfathered, file) && NoneEscapes(file.changes)
    requires count <= |file.changes| && Valid(schema, q)
    ensures Valid(ApplyAll(schema, file.changes[..count]), q)
  {
    hide LintsClean, Valid, Apply, Escapes;
    if count > 0 {
      assert file.changes[..count][..count - 1] == file.changes[..count - 1];
      FileKeepsQueries(grandfathered, file, count - 1, schema, q);
      var before := ApplyAll(schema, file.changes[..count - 1]);
      CleanChangeExactly(grandfathered, file, count - 1);
      assert !BreaksSomeQuery(before, file.changes[count - 1]);
    }
  }

  /**
   * Release N-1 keeps running on schema N: after any files that lint clean and
   * hold no change that escapes, every query of the previous release that
   * worked still works.
   */
  lemma {:induction false} PreviousReleaseKeepsRunning(
      grandfathered: set<string>, files: seq<File>, schema: Schema, q: Query)
    requires forall i :: 0 <= i < |files| ==> LintsClean(grandfathered, files[i]) && NoneEscapes(files[i].changes)
    requires Valid(schema, q)
    ensures Valid(ApplyFiles(schema, files), q)
  {
    hide LintsClean, Valid, NoneEscapes;
    if files != [] {
      var last := |files| - 1;
      PreviousReleaseKeepsRunning(grandfathered, files[..last], schema, q);
      var file := files[last];
      FileKeepsQueries(grandfathered, file, |file.changes|, ApplyFiles(schema, files[..last]), q);
      assert file.changes[..|file.changes|] == file.changes;
    }
  }
}
