/**
 * The expand/contract linter on real text: what its patterns match, how a file
 * and its statements are read, and where a statement is hidden from it. Only
 * the rules that bear on the previous release's queries are here: the
 * destructive rules and ADD COLUMN NOT NULL.
 */
module MigrationLint {
  import opened Common
  import opened MigrationText
  import opened Lexemes

  // ---- lintMigrationSql ----------------------------------------------------------

  datatype Rule = DropTableRule | DropColumnRule | RenameColumnRule | RenameToRule | SetNotNullRule | AddNotNullRule

  function Pattern(rule: Rule): (words: seq<string>)
    ensures AllKeywords(words)
  {
    match rule
    case DropTableRule => ["DROP", "TABLE"]
    case DropColumnRule => ["DROP", "COLUMN"]
    case RenameColumnRule => ["RENAME", "COLUMN"]
    case RenameToRule => ["RENAME", "TO"]
    case SetNotNullRule => ["SET", "NOT", "NULL"]
    case AddNotNullRule => ["ADD", "COLUMN"]
  }

  const DESTRUCTIVE_RULES := [DropTableRule, DropColumnRule, RenameColumnRule, RenameToRule, SetNotNullRule]

  predicate AddsRequiredColumn(body: string) {
    HasPhrase(body, ["ADD", "COLUMN"]) && HasPhrase(body, ["NOT", "NULL"]) && !HasPhrase(body, ["DEFAULT"])
  }

  /** The file as a whole is tested for each destructive pattern. */
  function DestructiveIssues(rules: seq<Rule>, code: string): seq<Rule> {
    if rules == [] then []
    else
      DestructiveIssues(rules[..|rules| - 1], code) +
      if HasPhrase(code, Pattern(rules[|rules| - 1])) then [rules[|rules| - 1]] else []
  }

  /** Each statement on its own is tested for a new column the previous release cannot fill. */
  function StatementIssues(statements: seq<string>): seq<Rule> {
    if statements == [] then []
    else
      StatementIssues(statements[..|statements| - 1]) +
      if AddsRequiredColumn(StripSqlComments(statements[|statements| - 1])) then [AddNotNullRule] else []
  }

  function Lint(grandfathered: set<string>, tag: string, sql: string): seq<Rule> {
    if tag in grandfathered then []
    else
      DestructiveIssues(DESTRUCTIVE_RULES, StripSqlComments(sql)) +
      StatementIssues(SplitMigrationStatements(sql))
  }

  /** Which destructive rules are among the issues: those whose words stand in a row. */
  ghost predicate NamesDestructive(issues: seq<Rule>, lexemes: seq<Lexeme>) {
    && (DropTableRule in issues <==> HasRow(lexemes, ["DROP", "TABLE"]))
    && (DropColumnRule in issues <==> HasRow(lexemes, ["DROP", "COLUMN"]))
    && (RenameColumnRule in issues <==> HasRow(lexemes, ["RENAME", "COLUMN"]))
    && (RenameToRule in issues <==> HasRow(lexemes, ["RENAME", "TO"]))
    && (SetNotNullRule in issues <==> HasRow(lexemes, ["SET", "NOT", "NULL"]))
  }

  /** The statement's code says ADD COLUMN and NOT NULL, and nowhere DEFAULT. */
  ghost predicate LacksDefault(statement: string) {
    && HasRow(CodeLexemes(statement), ["ADD", "COLUMN"])
    && HasRow(CodeLexemes(statement), ["NOT", "NULL"])
    && !HasRow(CodeLexemes(statement), ["DEFAULT"])
  }

  function Rank(rule: Rule): nat {
    match rule
    case DropTableRule => 0
    case DropColumnRule => 1
    case RenameColumnRule => 2
    case RenameToRule => 3
    case SetNotNullRule => 4
    case AddNotNullRule => 5
  }

  /** In the order of the rules, each destructive one at most once. */
  ghost predicate InOrder(issues: seq<Rule>) {
    forall i, k :: 0 <= i < k < |issues| ==>
      Rank(issues[i]) < Rank(issues[k]) || issues[i] == issues[k] == AddNotNullRule
  }

  /**
   * `lintMigrationSql`: nothing for a grandfathered tag; for any other the
   * destructive rules whose words the file's code has in a row, in order, and
   * then one issue for each statement that adds a required column without a
   * default.
   */
  method LintMigrationSql(grandfathered: set<string>, tag: string, sql: string) returns (issues: seq<Rule>)
    ensures issues == Lint(grandfathered, tag, sql)
    ensures tag in grandfathered ==> issues == []
    ensures tag !in grandfathered ==> (
      var statements := SplitMigrationStatements(sql);
      && NamesDestructive(issues, CodeLexemes(sql)) && InOrder(issues)
      && multiset(issues)[AddNotNullRule] == |set i | 0 <= i < |statements| && LacksDefault(statements[i])|)
  {
    if tag in grandfathered {
      return [];
    }
    hide DestructiveIssues, StatementIssues, NamesDestructive, StripSqlComments, LacksDefault, HasRow;
    var destructive := TestRules(DESTRUCTIVE_RULES, StripSqlComments(sql));
    var perStatement := TestStatements(SplitMigrationStatements(sql));
    issues := destructive + perStatement;
    TogetherInOrder(destructive, perStatement, CodeLexemes(sql));
  }

  method TestRules(rules: seq<Rule>, code: string) returns (issues: seq<Rule>)
    ensures issues == DestructiveIssues(rules, code)
    ensures rules == DESTRUCTIVE_RULES ==>
      NamesDestructive(issues, Lex(code)) && InOrder(issues) && AddNotNullRule !in issues
  {
    issues := [];
    for i := 0 to |rules|
      invariant issues == DestructiveIssues(rules[..i], code)
    {
      assert rules[..i + 1][..i] == rules[..i];
      if HasPhrase(code, Pattern(rules[i])) {
        issues := issues + [rules[i]];
      }
    }
    assert rules[..|rules|] == rules;
    DestructiveInOrder(code);
  }

  method TestStatements(statements: seq<string>) returns (issues: seq<Rule>)
    ensures issues == StatementIssues(statements)
    ensures (forall rule :: rule in issues ==> rule == AddNotNullRule)
    ensures |issues| == |set i | 0 <= i < |statements| && LacksDefault(statements[i])|
  {
    issues := [];
    for i := 0 to |statements|
      invariant issues == StatementIssues(statements[..i])
    {
      assert statements[..i + 1][..i] == statements[..i];
      if AddsRequiredColumn(StripSqlComments(statements[i])) {
        issues := issues + [AddNotNullRule];
      }
    }
    assert statements[..|statements|] == statements;
    StatementsCounted(statements);
  }

  lemma {:induction false} DestructiveMembers(rules: seq<Rule>, code: string)
    ensures forall rule :: rule in DestructiveIssues(rules, code) <==> rule in rules && HasPhrase(code, Pattern(rule))
  {
    hide HasPhrase, Pattern;
    if rules != [] {
      DestructiveMembers(rules[..|rules| - 1], code);
      assert rules == rules[..|rules| - 1] + [rules[|rules| - 1]];
    }
  }

  lemma {:induction false} FilteredInOrder(rules: seq<Rule>, code: string)
    requires forall i, k :: 0 <= i < k < |rules| ==> Rank(rules[i]) < Rank(rules[k])
    ensures InOrder(DestructiveIssues(rules, code))
  {
    hide HasPhrase, Pattern, Rank;
    if rules != [] {
      var front := rules[..|rules| - 1];
      FilteredInOrder(front, code);
      DestructiveMembers(front, code);
      var issues := DestructiveIssues(front, code);
      forall i | 0 <= i < |issues|
        ensures Rank(issues[i]) < Rank(rules[|rules| - 1])
      {
        assert issues[i] in front;
      }
    }
  }

  lemma DestructiveInOrder(code: string)
    ensures
      var issues := DestructiveIssues(DESTRUCTIVE_RULES, code);
      NamesDestructive(issues, Lex(code)) && InOrder(issues) && AddNotNullRule !in issues
  {
    RulesInOrder();
    hide HasPhrase, HasRow, DestructiveIssues, InOrder, DESTRUCTIVE_RULES, Rank;
    DestructiveMembers(DESTRUCTIVE_RULES, code);
    FilteredInOrder(DESTRUCTIVE_RULES, code);
    PhraseIsRow(code, Pattern(DropTableRule));
    PhraseIsRow(code, Pattern(DropColumnRule));
    PhraseIsRow(code, Pattern(RenameColumnRule));
    PhraseIsRow(code, Pattern(RenameToRule));
    PhraseIsRow(code, Pattern(SetNotNullRule));
  }

  lemma RulesInOrder()
    ensures forall i, k :: 0 <= i < k < |DESTRUCTIVE_RULES| ==> Rank(DESTRUCTIVE_RULES[i]) < Rank(DESTRUCTIVE_RULES[k])
    ensures forall rule :: rule in DESTRUCTIVE_RULES <==> rule != AddNotNullRule
  {
  }

  lemma {:induction false} StatementsCounted(statements: seq<string>)
    ensures forall rule :: rule in StatementIssues(statements) ==> rule == AddNotNullRule
    ensures |StatementIssues(statements)| == |set i | 0 <= i < |statements| && LacksDefault(statements[i])|
  {
    hide AddsRequiredColumn, LacksDefault, StripSqlComments;
    if statements != [] {
      var last := |statements| - 1;
      var front := statements[..last];
      StatementsCounted(front);
      LacksDefaultExactly(statements[last]);
      var inFront := set i | 0 <= i < |front| && LacksDefault(front[i]);
      var all := set i | 0 <= i < |statements| && LacksDefault(statements[i]);
      assert all == if LacksDefault(statements[last]) then inFront + {last} else inFront;
    }
  }

  lemma LacksDefaultExactly(statement: string)
    ensures AddsRequiredColumn(StripSqlComments(statement)) <==> LacksDefault(statement)
  {
    hide HasPhrase, HasRow, StripSqlComments;
    var code := StripSqlComments(statement);
    PhraseIsRow(code, ["ADD", "COLUMN"]);
    PhraseIsRow(code, ["NOT", "NULL"]);
    PhraseIsRow(code, ["DEFAULT"]);
  }

  /** The issues of the statements come after those of the file. */
  lemma TogetherInOrder(destructive: seq<Rule>, perStatement: seq<Rule>, lexemes: seq<Lexeme>)
    requires NamesDestructive(destructive, lexemes) && InOrder(destructive) && AddNotNullRule !in destructive
    requires forall rule :: rule in perStatement ==> rule == AddNotNullRule
    ensures NamesDestructive(destructive + perStatement, lexemes) && InOrder(destructive + perStatement)
    ensures multiset(destructive + perStatement)[AddNotNullRule] == |perStatement|
  {
    hide HasRow;
    var issues := destructive + perStatement;
    forall i, k | 0 <= i < k < |issues|
      ensures Rank(issues[i]) < Rank(issues[k]) || issues[i] == issues[k] == AddNotNullRule
    {
      assert i < |destructive| ==> issues[i] in destructive;
      assert k >= |destructive| ==> issues[k] in perStatement;
      assert i >= |destructive| ==> issues[i] in perStatement;
    }
    AllAre(perStatement, AddNotNullRule);
    assert multiset(issues) == multiset(destructive) + multiset(perStatement);
  }

  lemma {:induction false} AllAre(issues: seq<Rule>, rule: Rule)
    requires forall other :: other in issues ==> other == rule
    ensures multiset(issues)[rule] == |issues|
  {
    if issues != [] {
      assert issues == [issues[0]] + issues[1..];
      assert issues[0] in issues && forall other :: other in issues[1..] ==> other in issues;
      AllAre(issues[1..], rule);
    }
  }

  // ---- What the rules match -------------------------------------------------------

  /** No rule finds anything in this code of a statement. */
  predicate Clean(code: string) {
    DestructiveIssues(DESTRUCTIVE_RULES, code) == [] && !AddsRequiredColumn(code)
  }

  lemma {:induction false} DestructiveClean(rules: seq<Rule>, code: string)
    ensures DestructiveIssues(rules, code) == [] <==>
      forall i :: 0 <= i < |rules| ==> !HasPhrase(code, Pattern(rules[i]))
  {
    hide HasPhrase, Pattern;
    if rules != [] {
      var front := rules[..|rules| - 1];
      DestructiveClean(front, code);
      assert forall i :: 0 <= i < |front| ==> front[i] == rules[i];
    }
  }

  lemma {:induction false} StatementsClean(statements: seq<string>)
    ensures StatementIssues(statements) == [] <==>
      forall i :: 0 <= i < |statements| ==> !AddsRequiredColumn(StripSqlComments(statements[i]))
  {
    hide AddsRequiredColumn, StripSqlComments;
    if statements != [] {
      var front := statements[..|statements| - 1];
      StatementsClean(front);
      assert forall i :: 0 <= i < |front| ==> front[i] == statements[i];
    }
  }

  const ADD_COLUMN := ["ADD", "COLUMN"]
  const NOT_NULL := ["NOT", "NULL"]
  const DEFAULT := ["DEFAULT"]

  /** Some destructive rule's words stand in a row. */
  ghost predicate HasDestructiveRow(lexemes: seq<Lexeme>) {
    exists i :: 0 <= i < |DESTRUCTIVE_RULES| && HasRow(lexemes, Pattern(DESTRUCTIVE_RULES[i]))
  }

  ghost predicate HasRequiredColumnRows(lexemes: seq<Lexeme>) {
    HasRow(lexemes, ADD_COLUMN) && HasRow(lexemes, NOT_NULL) && !HasRow(lexemes, DEFAULT)
  }

  lemma DestructiveExactly(code: string)
    ensures DestructiveIssues(DESTRUCTIVE_RULES, code) == [] <==> !HasDestructiveRow(Lex(code))
  {
    hide HasPhrase, HasRow, Pattern, DESTRUCTIVE_RULES;
    DestructiveClean(DESTRUCTIVE_RULES, code);
    forall i | 0 <= i < |DESTRUCTIVE_RULES|
      ensures HasPhrase(code, Pattern(DESTRUCTIVE_RULES[i])) <==> HasRow(Lex(code), Pattern(DESTRUCTIVE_RULES[i]))
    {
      PhraseIsRow(code, Pattern(DESTRUCTIVE_RULES[i]));
    }
  }

  lemma RequiredColumnExactly(code: string)
    ensures AddsRequiredColumn(code) <==> HasRequiredColumnRows(Lex(code))
  {
    hide HasPhrase, HasRow;
    PhraseIsRow(code, ADD_COLUMN);
    PhraseIsRow(code, NOT_NULL);
    PhraseIsRow(code, DEFAULT);
  }

  /** On every text the linter finds nothing exactly when no rule's words stand in a row in its lexemes. */
  lemma CleanExactly(code: string)
    ensures Clean(code) <==> !HasDestructiveRow(Lex(code)) && !HasRequiredColumnRows(Lex(code))
  {
    hide AddsRequiredColumn, DestructiveIssues, HasDestructiveRow, HasRequiredColumnRows;
    DestructiveExactly(code);
    RequiredColumnExactly(code);
  }

  // ---- Comments and layout -----------------------------------------------------------

  predicate AllSpace(s: string) {
    forall i :: 0 <= i < |s| ==> IsSpace(s[i])
  }

  /** Every block comment that is opened is closed. */
  predicate Closed(s: string)
    decreases |s|
  {
    if s == "" then true
    else if OccursAt(s, "/*", 0) then
      var close := IndexOf(s, "*/", 2);
      close.Some? && Closed(s[close.value + 2..])
    else Closed(s[1..])
  }

  /** Nothing but white space up to the end of the line. */
  predicate RestOfLineBlank(s: string) {
    forall i :: 0 <= i < LineEnd(s, 0) ==> IsSpace(s[i])
  }

  /** Every breakpoint ends its line, and no block comment reaches across one. */
  predicate WellLaid(sql: string)
    decreases |sql|
  {
    match IndexOf(sql, STATEMENT_BREAKPOINT, 0)
    case None => true
    case Some(i) =>
      var rest := sql[i + |STATEMENT_BREAKPOINT|..];
      Closed(sql[..i]) && RestOfLineBlank(rest) && WellLaid(rest)
  }

  lemma IndexOfInFront(a: string, b: string, pat: string, from: nat)
    requires IndexOf(a, pat, from).Some?
    ensures IndexOf(a + b, pat, from) == IndexOf(a, pat, from)
  {
    var k := IndexOf(a, pat, from).value;
    assert (a + b)[..|a|] == a;
    forall i
      ensures i <= k ==> (OccursAt(a + b, pat, i) <==> OccursAt(a, pat, i))
    {
      OccursInPrefix(a + b, pat, |a|, i);
    }
  }

  lemma StripBlocksCloses(s: string, close: nat)
    requires OccursAt(s, "/*", 0) && IndexOf(s, "*/", 2) == Some(close)
    ensures StripBlocks(s) == " " + StripBlocks(s[close + 2..])
  {
    hide IndexOf;
  }

  lemma StripBlocksCopies(s: string)
    requires s != "" && (!OccursAt(s, "/*", 0) || IndexOf(s, "*/", 2).None?)
    ensures StripBlocks(s) == [s[0]] + StripBlocks(s[1..])
  {
    hide IndexOf;
  }

  /** After a text with every block closed, the rest is stripped on its own. */
  lemma {:induction false} BlocksConcat(a: string, b: string)
    requires Closed(a) && (a == "" || b == "" || a[|a| - 1] != '/' || b[0] != '*')
    ensures StripBlocks(a + b) == StripBlocks(a) + StripBlocks(b)
    decreases |a|
  {
    hide StripBlocks, IndexOf, OccursAt;
    var s := a + b;
    PairAt(s, "/*", 0);
    PairAt(a, "/*", 0);
    if a == "" {
      assert s == b;
      NothingToStrip();
    } else if OccursAt(a, "/*", 0) {
      IndexOfInFront(a, b, "*/", 2);
      var close := IndexOf(a, "*/", 2).value;
      FitsIn(a, "*/", close);
      StripBlocksCloses(a, close);
      StripBlocksCloses(s, close);
      assert s[close + 2..] == a[close + 2..] + b;
      BlocksConcat(a[close + 2..], b);
    } else {
      StripBlocksCopies(a);
      StripBlocksCopies(s);
      assert s[1..] == a[1..] + b;
      BlocksConcat(a[1..], b);
    }
  }

  lemma NothingToStrip()
    ensures StripBlocks("") == ""
  {
  }

  lemma FitsIn(s: string, pat: string, i: nat)
    requires OccursAt(s, pat, i)
    ensures i + |pat| <= |s|
  {
  }

  lemma {:induction false} BlocksThenSpaces(a: string, spaces: string)
    requires AllSpace(spaces)
    ensures StripBlocks(a + spaces) == StripBlocks(a) + spaces
    decreases |a| + |spaces|
  {
    hide StripBlocks, IndexOf, OccursAt, IsSpace;
    var s := a + spaces;
    if s == "" {
      NothingToStrip();
    } else if a == "" {
      assert s == spaces && s[1..] == "" + spaces[1..];
      NothingToStrip();
      SpaceOpensNothing(s);
      StripBlocksCopies(s);
      BlocksThenSpaces("", spaces[1..]);
    } else if OccursAt(a, "/*", 0) && IndexOf(a, "*/", 2).Some? {
      IndexOfInFront(a, spaces, "*/", 2);
      var close := IndexOf(a, "*/", 2).value;
      FitsIn(a, "*/", close);
      OpensStill(a, spaces);
      StripBlocksCloses(a, close);
      StripBlocksCloses(s, close);
      assert s[close + 2..] == a[close + 2..] + spaces;
      BlocksThenSpaces(a[close + 2..], spaces);
    } else {
      NoCloserInSpaces(a, spaces);
      OpensStill(a, spaces);
      StripBlocksCopies(a);
      StripBlocksCopies(s);
      assert s[1..] == a[1..] + spaces;
      BlocksThenSpaces(a[1..], spaces);
    }
  }

  lemma SpaceOpensNothing(s: string)
    requires s != "" && IsSpace(s[0])
    ensures !OccursAt(s, "/*", 0)
  {
    PairAt(s, "/*", 0);
  }

  lemma OpensStill(a: string, spaces: string)
    requires a != "" && AllSpace(spaces)
    ensures OccursAt(a + spaces, "/*", 0) <==> OccursAt(a, "/*", 0)
  {
    PairAt(a + spaces, "/*", 0);
    PairAt(a, "/*", 0);
    assert |a| == 1 && spaces != "" ==> IsSpace((a + spaces)[1]);
  }

  lemma NoCloserInSpaces(a: string, spaces: string)
    requires AllSpace(spaces)
    ensures IndexOf(a, "*/", 2).None? ==> IndexOf(a + spaces, "*/", 2).None?
  {
    forall k | 2 <= k && OccursAt(a + spaces, "*/", k)
      ensures OccursAt(a, "*/", k)
    {
      PairAt(a + spaces, "*/", k);
      PairAt(a, "*/", k);
      assert (a + spaces)[k + 1] == '/' && !IsSpace('/');
    }
  }

  lemma StripLinesComment(s: string, stop: nat)
    requires 2 <= stop <= |s| && OccursAt(s, "--", 0) && LineEnd(s, 2) == stop
    ensures StripLines(s) == " " + StripLines(s[stop..])
  {
    hide LineEnd;
  }

  lemma StripLinesCopies(s: string)
    requires s != "" && !OccursAt(s, "--", 0)
    ensures StripLines(s) == [s[0]] + StripLines(s[1..])
  {
    hide LineEnd;
  }

  lemma {:induction false} LineEndConcat(a: string, b: string, from: nat)
    requires from <= |a|
    ensures LineEnd(a, from) < |a| ==> LineEnd(a + b, from) == LineEnd(a, from)
    ensures LineEnd(a, from) == |a| ==> LineEnd(a + b, from) == |a| + LineEnd(b, 0)
    decreases |a| - from
  {
    if from < |a| {
      if a[from] != '\n' {
        LineEndConcat(a, b, from + 1);
      }
    } else {
      LineEndShift(a, b, 0);
    }
  }

  lemma {:induction false} LineEndShift(a: string, b: string, from: nat)
    requires from <= |b|
    ensures LineEnd(a + b, |a| + from) == |a| + LineEnd(b, from)
    decreases |b| - from
  {
    if from < |b| && b[from] != '\n' {
      LineEndShift(a, b, from + 1);
    }
  }

  lemma SpacesAreCode(spaces: string)
    requires AllSpace(spaces)
    ensures StripLines(spaces) == spaces
  {
    forall i
      ensures !OccursAt(spaces, "--", i)
    {
      PairAt(spaces, "--", i);
    }
    StripLinesIdentity(spaces);
  }

  lemma DashesStay(a: string, b: string)
    requires OccursAt(a, "--", 0)
    ensures OccursAt(a + b, "--", 0) && |a| >= 2
  {
    PairAt(a, "--", 0);
    PairAt(a + b, "--", 0);
  }

  /** A line comment that ends before the text does is stripped alike, whatever follows the text. */
  lemma ClosedLine(a: string, b: string)
    requires OccursAt(a, "--", 0) && |a| >= 2 && LineEnd(a, 2) < |a|
    ensures StripLines(a) == " " + StripLines(a[LineEnd(a, 2)..])
    ensures StripLines(a + b) == " " + StripLines(a[LineEnd(a, 2)..] + b)
  {
    hide LineEnd, StripLines, OccursAt;
    DashesStay(a, b);
    LineEndConcat(a, b, 2);
    StripLinesComment(a, LineEnd(a, 2));
    StripLinesComment(a + b, LineEnd(a, 2));
    assert (a + b)[LineEnd(a, 2)..] == a[LineEnd(a, 2)..] + b;
  }

  /** A line comment still open at the end of the text takes the rest of the line with it. */
  lemma OpenLine(a: string, b: string)
    requires OccursAt(a, "--", 0) && |a| >= 2 && LineEnd(a, 2) == |a|
    ensures StripLines(a) == " "
    ensures StripLines(a + b) == " " + StripLines(b[LineEnd(b, 0)..])
  {
    hide LineEnd, StripLines, OccursAt;
    DashesStay(a, b);
    LineEndConcat(a, b, 2);
    StripLinesComment(a, |a|);
    assert a[|a|..] == "";
    SpacesAreCode("");
    StripLinesComment(a + b, |a| + LineEnd(b, 0));
    assert (a + b)[|a| + LineEnd(b, 0)..] == b[LineEnd(b, 0)..];
  }

  lemma CopiesOn(a: string, b: string)
    requires a != "" && !OccursAt(a, "--", 0) && !OccursAt(a + b, "--", 0)
    ensures StripLines(a) == [a[0]] + StripLines(a[1..])
    ensures StripLines(a + b) == [a[0]] + StripLines(a[1..] + b)
  {
    hide LineEnd, StripLines, OccursAt;
    StripLinesCopies(a);
    StripLinesCopies(a + b);
    assert (a + b)[1..] == a[1..] + b;
  }

  /** White space behind a text leaves its code as it was, up to white space. */
  lemma {:induction false} LinesThenSpaces(a: string, spaces: string) returns (code: string, end: string, more: string)
    requires AllSpace(spaces)
    ensures StripLines(a) == code + end && StripLines(a + spaces) == code + more
    ensures AllSpace(end) && AllSpace(more)
    decreases |a|
  {
    hide LineEnd, StripLines, IsSpace, OccursAt;
    SpaceIsSpace();
    if a == "" {
      assert a + spaces == spaces;
      SpacesAreCode("");
      SpacesAreCode(spaces);
      code, end, more := "", "", spaces;
    } else if OccursAt(a, "--", 0) {
      DashesStay(a, spaces);
      if LineEnd(a, 2) < |a| {
        ClosedLine(a, spaces);
        code, end, more := LinesThenSpaces(a[LineEnd(a, 2)..], spaces);
        code := " " + code;
      } else {
        var left := spaces[LineEnd(spaces, 0)..];
        OpenLine(a, spaces);
        SpacesAreCode(left);
        code, end, more := "", " ", " " + left;
      }
    } else {
      DashThenSpace(a, spaces);
      CopiesOn(a, spaces);
      code, end, more := LinesThenSpaces(a[1..], spaces);
      code := [a[0]] + code;
    }
  }

  lemma SpaceIsSpace()
    ensures IsSpace(' ')
  {
  }

  lemma DashThenSpace(a: string, spaces: string)
    requires a != "" && !OccursAt(a, "--", 0) && AllSpace(spaces)
    ensures !OccursAt(a + spaces, "--", 0)
  {
    PairAt(a, "--", 0);
    PairAt(a + spaces, "--", 0);
  }

  /**
   * A line comment after a text: it is stripped to the end of its line, and the
   * text keeps its code but for a dash at its very end.
   */
  lemma {:induction false} LinesApart(a: string, b: string) returns (code: string)
    requires OccursAt(b, "--", 0)
    ensures StripLines(a + b) == code + " " + StripLines(b[LineEnd(b, 0)..])
    ensures IsCodeBut(StripLines(a), code)
    decreases |a|
  {
    hide LineEnd, StripLines, OccursAt, IsCodeBut;
    CodeButNothing();
    if a == "" {
      assert a + b == b;
      SkipsDashes(b);
      SpacesAreCode("");
      StripLinesComment(b, LineEnd(b, 2));
      code := "";
    } else if OccursAt(a, "--", 0) {
      DashesStay(a, b);
      if LineEnd(a, 2) < |a| {
        ClosedLine(a, b);
        var rest := LinesApart(a[LineEnd(a, 2)..], b);
        CodeButMore(' ', StripLines(a[LineEnd(a, 2)..]), rest);
        assert " " + (rest + " " + StripLines(b[LineEnd(b, 0)..])) == " " + rest + " " + StripLines(b[LineEnd(b, 0)..]);
        code := " " + rest;
      } else {
        OpenLine(a, b);
        code := "";
      }
    } else if a == "-" {
      DashBefore(b);
      code := "";
    } else {
      NoDashesYet(a, b);
      CopiesOn(a, b);
      var rest := LinesApart(a[1..], b);
      CodeButMore(a[0], StripLines(a[1..]), rest);
      var after := StripLines(b[LineEnd(b, 0)..]);
      assert [a[0]] + (rest + " " + after) == [a[0]] + rest + " " + after;
      code := [a[0]] + rest;
    }
  }

  /** The code of a text, but for the space an open comment leaves or a dash at the end. */
  predicate IsCodeBut(full: string, code: string) {
    full == code || full == code + " " || full == code + "-"
  }

  lemma CodeButNothing()
    ensures IsCodeBut("", "") && IsCodeBut(" ", "") && IsCodeBut("-", "")
  {
  }

  lemma CodeButMore(c: char, full: string, code: string)
    requires IsCodeBut(full, code)
    ensures IsCodeBut([c] + full, [c] + code)
  {
    assert [c] + (code + " ") == [c] + code + " " && [c] + (code + "-") == [c] + code + "-";
  }

  lemma NoDashesYet(a: string, b: string)
    requires a != "" && a != "-" && !OccursAt(a, "--", 0)
    ensures !OccursAt(a + b, "--", 0)
  {
    PairAt(a, "--", 0);
    PairAt(a + b, "--", 0);
  }

  lemma DashBefore(b: string)
    requires OccursAt(b, "--", 0)
    ensures StripLines("-" + b) == " " + StripLines(b[LineEnd(b, 0)..])
    ensures StripLines("-") == "-"
  {
    hide LineEnd, StripLines;
    PairAt(b, "--", 0);
    PairAt("-" + b, "--", 0);
    PairAt("-", "--", 0);
    SkipsDashes(b);
    LineEndShift("-", b, 1);
    StripLinesComment("-" + b, 1 + LineEnd(b, 1));
    assert ("-" + b)[1 + LineEnd(b, 0)..] == b[LineEnd(b, 0)..];
    StripLinesCopies("-");
    SpacesAreCode("");
    assert "-"[1..] == "";
  }

  lemma SkipsDashes(b: string)
    requires OccursAt(b, "--", 0)
    ensures LineEnd(b, 0) == LineEnd(b, 1) == LineEnd(b, 2)
  {
    PairAt(b, "--", 0);
    NextInLine(b, 0);
    NextInLine(b, 1);
  }

  lemma NextInLine(b: string, i: nat)
    requires i < |b| && b[i] != '\n'
    ensures LineEnd(b, i) == LineEnd(b, i + 1)
  {
  }

  // ---- Statements and their file ----------------------------------------------------------

  /** The same lexemes, or one dash more at the end. */
  predicate UpToDash(lexemes: seq<Lexeme>, part: seq<Lexeme>) {
    lexemes == part || lexemes == part + [Sep('-')]
  }

  lemma LexThenSpaces(a: string, spaces: string)
    requires AllSpace(spaces)
    ensures Lex(a + spaces) == Lex(a)
  {
    assert !Joins(a, spaces);
    LexConcat(a, spaces);
    LexSpaces(spaces);
  }

  lemma SpacesThenLex(spaces: string, a: string)
    requires AllSpace(spaces)
    ensures Lex(spaces + a) == Lex(a)
  {
    assert !Joins(spaces, a);
    LexConcat(spaces, a);
    LexSpaces(spaces);
  }

  lemma SpaceThenCode(c: char, a: string)
    requires IsSpace(c)
    ensures StripSqlComments([c] + a) == [c] + StripSqlComments(a)
  {
    hide StripBlocks, StripLines;
    var s := [c] + a;
    assert s[1..] == a;
    SpaceOpensNothing(s);
    StripBlocksCopies(s);
    var t := StripBlocks(s);
    PairAt(t, "--", 0);
    StripLinesCopies(t);
    assert t[1..] == StripBlocks(a);
  }

  lemma {:induction false} SpacesThenCode(spaces: string, a: string)
    requires AllSpace(spaces)
    ensures StripSqlComments(spaces + a) == spaces + StripSqlComments(a)
  {
    hide StripSqlComments, IsSpace;
    if spaces == "" {
      assert spaces + a == a;
    } else {
      SpacesThenCode(spaces[1..], a);
      SpaceThenCode(spaces[0], spaces[1..] + a);
      assert spaces + a == [spaces[0]] + (spaces[1..] + a);
    }
  }

  lemma TrimLeftStep(s: string)
    ensures TrimLeft(s) == if s != "" && IsSpace(s[0]) then TrimLeft(s[1..]) else s
  {
    hide IsSpace;
  }

  lemma Regroup(a: string, b: string, c: string)
    ensures a + (b + c) == a + b + c
  {
  }

  lemma {:induction false} TrimLeftCut(s: string) returns (spaces: string)
    ensures s == spaces + TrimLeft(s) && AllSpace(spaces)
    decreases |s|
  {
    hide TrimLeft, IsSpace, AllSpace;
    TrimLeftStep(s);
    if s != "" && IsSpace(s[0]) {
      var rest := TrimLeftCut(s[1..]);
      MoreSpace(s[0], rest);
      spaces := [s[0]] + rest;
      assert s == [s[0]] + s[1..];
      Regroup([s[0]], rest, TrimLeft(s[1..]));
    } else {
      NoSpace();
      spaces := "";
      assert s == "" + s;
    }
  }

  lemma NoSpace()
    ensures AllSpace("")
  {
  }

  lemma MoreSpace(c: char, spaces: string)
    requires IsSpace(c) && AllSpace(spaces)
    ensures AllSpace([c] + spaces) && AllSpace(spaces + [c])
  {
    hide IsSpace;
  }

  lemma {:induction false} TrimRightCut(s: string) returns (spaces: string)
    ensures s == TrimRight(s) + spaces && AllSpace(spaces)
    decreases |s|
  {
    hide IsSpace, AllSpace;
    if s != "" && IsSpace(s[|s| - 1]) {
      var rest := TrimRightCut(s[..|s| - 1]);
      MoreSpace(s[|s| - 1], rest);
      spaces := rest + [s[|s| - 1]];
    } else {
      NoSpace();
      spaces := "";
    }
  }

  /** Trimming a statement leaves the lexemes of its code as they were. */
  lemma TrimIsUnseen(s: string)
    ensures CodeLexemes(Trim(s)) == CodeLexemes(s)
  {
    hide Lex, StripBlocks, StripLines, TrimLeft, TrimRight, IsSpace, AllSpace;
    var before := TrimLeftCut(s);
    var inner := TrimLeft(s);
    var after := TrimRightCut(inner);
    var t := Trim(s);
    SpacesThenCode(before, inner);
    SpacesThenLex(before, StripSqlComments(inner));
    BlocksThenSpaces(t, after);
    var code, end, more := LinesThenSpaces(StripBlocks(t), after);
    LexThenSpaces(code, end);
    LexThenSpaces(code, more);
  }

  /** A text that starts a line comment and holds neither a block comment's characters nor a line end. */
  predicate IsLineMark(mark: string) {
    |mark| >= 2 && mark[0] == mark[1] == '-' && forall i :: 0 <= i < |mark| ==> mark[i] !in ['/', '*', '\n']
  }

  lemma BreakpointIsLineMark()
    ensures IsLineMark(STATEMENT_BREAKPOINT)
  {
  }

  lemma {:induction false} UnopenedIsClosed(s: string)
    requires forall i :: 0 <= i < |s| ==> s[i] != '/'
    ensures Closed(s) && StripBlocks(s) == s
    decreases |s|
  {
    if s != "" {
      PairAt(s, "/*", 0);
      UnopenedIsClosed(s[1..]);
      StripBlocksCopies(s);
    }
  }

  lemma {:induction false} LineEndAt(s: string, from: nat, end: nat)
    requires from <= end <= |s| && (end < |s| ==> s[end] == '\n')
    requires forall i :: from <= i < end ==> s[i] != '\n'
    ensures LineEnd(s, from) == end
    decreases end - from
  {
    if from < end {
      LineEndAt(s, from + 1, end);
    }
  }

  lemma {:induction false} LineEndStops(s: string, from: nat)
    requires from <= |s|
    ensures LineEnd(s, from) < |s| ==> s[LineEnd(s, from)] == '\n'
    ensures forall i :: from <= i < LineEnd(s, from) ==> s[i] != '\n'
    decreases |s| - from
  {
    if from < |s| && s[from] != '\n' {
      LineEndStops(s, from + 1);
    }
  }

  lemma NewlineStays(s: string)
    requires s == "" || s[0] == '\n'
    ensures StripBlocks(s) == "" || StripBlocks(s)[0] == '\n'
  {
    if s != "" {
      PairAt(s, "/*", 0);
      StripBlocksCopies(s);
    }
  }

  /** What follows a mark on its line is stripped with it; the next line is read as it stands. */
  lemma MarkedLine(mark: string, spaces: string, lines: string)
    requires IsLineMark(mark) && AllSpace(spaces) && (forall i :: 0 <= i < |spaces| ==> spaces[i] != '\n')
    requires lines == "" || lines[0] == '\n'
    ensures
      var after := StripBlocks(mark + (spaces + lines));
      OccursAt(after, "--", 0) && after[LineEnd(after, 0)..] == StripBlocks(lines)
  {
    hide StripBlocks, LineEnd, Closed, IsSpace;
    var blocks := StripBlocks(lines);
    var after := mark + (spaces + blocks);
    UnopenedIsClosed(mark);
    BlocksConcat(mark, spaces + lines);
    SpacesHaveNoSlash(spaces);
    UnopenedIsClosed(spaces);
    BlocksConcat(spaces, lines);
    NewlineStays(lines);
    var end := |mark| + |spaces|;
    assert after[end..] == blocks;
    LineEndAt(after, 0, end);
    PairAt(after, "--", 0);
  }

  lemma SpacesHaveNoSlash(spaces: string)
    requires AllSpace(spaces)
    ensures forall i :: 0 <= i < |spaces| ==> spaces[i] != '/'
  {
  }

  lemma LexDash(code: string)
    ensures Lex(code + "-") == Lex(code) + [Sep('-')]
  {
    LexConcat(code, "-");
    assert Lex("-") == [Sep('-')] + Lex(""[0..]);
  }

  lemma LexAroundSpace(a: string, b: string)
    ensures Lex(a + " " + b) == Lex(a) + Lex(b)
  {
    SpaceIsSpace();
    LexThenSpaces(a, " ");
    LexConcat(a + " ", b);
  }

  /** Text before a line comment, and text from the next line on, are read as they are by themselves. */
  lemma MarkIsSpace(head: string, mark: string, spaces: string, lines: string) returns (part: seq<Lexeme>)
    requires IsLineMark(mark) && Closed(head) && AllSpace(spaces)
    requires forall i :: 0 <= i < |spaces| ==> spaces[i] != '\n'
    requires lines == "" || lines[0] == '\n'
    ensures CodeLexemes(head + (mark + (spaces + lines))) == part + CodeLexemes(lines)
    ensures UpToDash(CodeLexemes(head), part)
  {
    hide Lex, StripBlocks, StripLines, Closed, LineEnd, IsSpace, OccursAt;
    var rest := mark + (spaces + lines);
    BlocksConcat(head, rest);
    MarkedLine(mark, spaces, lines);
    var code := LinesApart(StripBlocks(head), StripBlocks(rest));
    part := Lex(code);
    LexAroundSpace(code, StripSqlComments(lines));
    LexDash(code);
    LexAroundSpace(code, "");
    assert code + " " + "" == code + " " && Lex("") == [] by {
      LexSpaces("");
    }
  }

  /** The breakpoint is itself a line comment: to the rules it is white space. */
  lemma BreakpointIsSpace(head: string, rest: string) returns (part: seq<Lexeme>)
    requires Closed(head) && RestOfLineBlank(rest)
    ensures CodeLexemes(head + STATEMENT_BREAKPOINT + rest) == part + CodeLexemes(rest)
    ensures UpToDash(CodeLexemes(head), part)
  {
    hide Lex, StripBlocks, StripLines, Closed, LineEnd, IsSpace, STATEMENT_BREAKPOINT;
    var mark, end := STATEMENT_BREAKPOINT, LineEnd(rest, 0);
    var spaces, lines := rest[..end], rest[end..];
    LineEndStops(rest, 0);
    assert rest == spaces + lines && head + mark + rest == head + (mark + (spaces + lines));
    BreakpointIsLineMark();
    part := MarkIsSpace(head, mark, spaces, lines);
    SpacesThenCode(spaces, lines);
    SpacesThenLex(spaces, StripSqlComments(lines));
  }

  function Flat(parts: seq<seq<Lexeme>>): seq<Lexeme> {
    if parts == [] then [] else parts[0] + Flat(parts[1..])
  }

  /**
   * For a file in which every breakpoint ends its line and block comments stay
   * within a statement, the code the destructive rules read is that of its
   * statements in order, but for a dash some of them may end in.
   */
  lemma {:induction false} FileCodeIsStatements(sql: string) returns (parts: seq<seq<Lexeme>>)
    requires WellLaid(sql)
    ensures Flat(parts) == CodeLexemes(sql) && |parts| == |SplitMigrationStatements(sql)|
    ensures forall i :: 0 <= i < |parts| ==>
      UpToDash(CodeLexemes(SplitMigrationStatements(sql)[i]), parts[i])
    decreases |sql|
  {
    hide CodeLexemes, Trim, Closed, RestOfLineBlank, STATEMENT_BREAKPOINT;
    var at := IndexOf(sql, STATEMENT_BREAKPOINT, 0);
    if at.None? {
      OneStatement(sql);
      TrimIsUnseen(sql);
      parts := if Trim(sql) == "" then [] else [CodeLexemes(sql)];
      NoCode();
    } else {
      var head, rest := sql[..at.value], sql[at.value + |STATEMENT_BREAKPOINT|..];
      assert sql == head + STATEMENT_BREAKPOINT + rest;
      var part := BreakpointIsSpace(head, rest);
      BreakpointIsLineMark();
      var later := FileCodeIsStatements(rest);
      MoreStatements(sql, at.value);
      TrimIsUnseen(head);
      NoCode();
      parts := if Trim(head) == "" then later else [part] + later;
    }
  }

  lemma NoCode()
    ensures CodeLexemes("") == []
  {
    NothingToStrip();
    SpacesAreCode("");
  }

  lemma OneStatement(sql: string)
    requires IndexOf(sql, STATEMENT_BREAKPOINT, 0).None?
    ensures SplitMigrationStatements(sql) == if Trim(sql) == "" then [] else [Trim(sql)]
  {
    hide Trim, IndexOf;
    var pieces := SplitOn(sql, STATEMENT_BREAKPOINT);
    assert pieces == [sql] && pieces[1..] == [];
    assert TrimAll(pieces[1..]) == [];
  }

  lemma MoreStatements(sql: string, at: nat)
    requires IndexOf(sql, STATEMENT_BREAKPOINT, 0) == Some(at)
    ensures SplitMigrationStatements(sql) ==
      (if Trim(sql[..at]) == "" then [] else [Trim(sql[..at])]) +
      SplitMigrationStatements(sql[at + |STATEMENT_BREAKPOINT|..])
  {
    hide Trim, IndexOf;
    var rest := SplitOn(sql[at + |STATEMENT_BREAKPOINT|..], STATEMENT_BREAKPOINT);
    assert SplitOn(sql, STATEMENT_BREAKPOINT) == [sql[..at]] + rest;
    assert ([sql[..at]] + rest)[1..] == rest;
  }

  // ---- A clean file has clean statements ---------------------------------------------------

  lemma RowInParts(parts: seq<seq<Lexeme>>, i: nat, words: seq<string>)
    requires i < |parts| && HasRow(parts[i], words)
    ensures HasRow(Flat(parts), words)
    decreases i
  {
    hide RowAt;
    if i > 0 {
      RowInParts(parts[1..], i - 1, words);
      var k: nat :| RowAt(Flat(parts[1..]), words, k);
      RowShift(parts[0], Flat(parts[1..]), words, k);
    } else {
      var k: nat :| RowAt(parts[0], words, k);
      RowExtends(parts[0], Flat(parts[1..]), words, k);
    }
  }

  lemma RowExtends(a: seq<Lexeme>, b: seq<Lexeme>, words: seq<string>, k: nat)
    requires RowAt(a, words, k)
    ensures RowAt(a + b, words, k)
  {
    hide Is;
    forall i | 0 <= i < |words|
      ensures Is((a + b)[k + i], words[i])
    {
      assert Is(a[k + i], words[i]);
    }
  }

  lemma DashEndsNoRow(lexemes: seq<Lexeme>, part: seq<Lexeme>, words: seq<string>)
    requires UpToDash(lexemes, part) && words != [] && HasRow(lexemes, words)
    ensures HasRow(part, words)
  {
    hide SameWord;
    var k: nat :| RowAt(lexemes, words, k);
    var last := |words| - 1;
    assert Is(lexemes[k + last], words[last]);
    assert forall i :: 0 <= i < |words| ==> Is(lexemes[k + i], words[i]);
    assert RowAt(part, words, k);
  }

  /** A file in this layout that lints clean has only clean statements. */
  lemma CleanFileHasCleanStatements(grandfathered: set<string>, tag: string, sql: string, i: nat)
    requires tag !in grandfathered && WellLaid(sql) && i < |SplitMigrationStatements(sql)|
    requires Lint(grandfathered, tag, sql) == []
    ensures Clean(StripSqlComments(SplitMigrationStatements(sql)[i]))
  {
    hide AddsRequiredColumn, StripSqlComments, DestructiveIssues, StatementIssues, SplitMigrationStatements, Lex,
         HasRow, Pattern, WellLaid, DESTRUCTIVE_RULES, UpToDash, Flat;
    var statements := SplitMigrationStatements(sql);
    StatementsClean(statements);
    var parts := FileCodeIsStatements(sql);
    DestructiveExactly(StripSqlComments(sql));
    DestructiveExactly(StripSqlComments(statements[i]));
    forall r | 0 <= r < |DESTRUCTIVE_RULES| && HasRow(CodeLexemes(statements[i]), Pattern(DESTRUCTIVE_RULES[r]))
      ensures HasRow(CodeLexemes(sql), Pattern(DESTRUCTIVE_RULES[r]))
    {
      DashEndsNoRow(CodeLexemes(statements[i]), parts[i], Pattern(DESTRUCTIVE_RULES[r]));
      RowInParts(parts, i, Pattern(DESTRUCTIVE_RULES[r]));
    }
  }

  // ---- Where a statement is hidden ------------------------------------------------------------

  /** A statement with no comment in it and none begun at its end. */
  ghost predicate CommentFree(s: string) {
    s != "" && Trim(s) == s && FreeOf(s, "--") && FreeOf(s, "/*") && s[|s| - 1] != '-' && s[|s| - 1] != '/'
  }

  lemma {:induction false} StripLinesTo(head: string, tail: string, stop: nat)
    requires FreeOf(head, "--") && (head == "" || head[|head| - 1] != '-')
    requires 2 <= stop <= |tail| && OccursAt(tail, "--", 0) && LineEnd(tail, 2) == stop
    ensures StripLines(head + tail) == head + " " + StripLines(tail[stop..])
    decreases |head|
  {
    hide StripLines, LineEnd;
    var s := head + tail;
    if head == "" {
      assert s == tail;
      StripLinesComment(tail, stop);
    } else {
      PairAt(s, "--", 0);
      PairAt(head, "--", 0);
      StripLinesCopies(s);
      forall i
        ensures !OccursAt(head[1..], "--", i)
      {
        OccursInSuffix(head, "--", 1, i);
      }
      assert s[1..] == head[1..] + tail;
      StripLinesTo(head[1..], tail, stop);
    }
  }

  lemma CommentFreeHasNoBreakpoint(s: string, bp: string)
    requires FreeOf(s, "--") && |bp| >= 2 && bp[0] == bp[1] == '-'
    ensures FreeOf(s, bp)
  {
    forall i
      ensures !OccursAt(s, bp, i)
    {
      PairAt(s, "--", i);
      assert 0 <= i && i + |bp| <= |s| ==> s[i..i + |bp|][0] == s[i] && s[i..i + |bp|][1] == s[i + 1];
    }
  }

  lemma SplitOfFree(s: string, sep: string)
    requires sep != "" && FreeOf(s, sep)
    ensures SplitOn(s, sep) == [s]
  {
  }

  lemma CommentFreeIsCode(s: string)
    requires CommentFree(s)
    ensures StripSqlComments(s) == s
  {
    StripBlocksIdentity(s);
    StripLinesIdentity(s);
  }

  /** What stands between a line mark and the end of the text's only line is stripped with the mark. */
  lemma RestOfLineIsNotRead(head: string, mark: string, tail: string)
    requires CommentFree(head) && IsLineMark(mark) && FreeOf(tail, "/*")
    requires forall i :: 0 <= i < |tail| ==> tail[i] != '\n'
    ensures StripSqlComments(head + mark + tail) == head + " "
  {
    hide StripLines, StripBlocks, LineEnd;
    var rest := mark + tail;
    NoOpenerAcross(head, mark, tail);
    assert head + mark + tail == head + rest;
    StripBlocksIdentity(head + rest);
    PairAt(rest, "--", 0);
    LineEndAt(rest, 2, |rest|);
    StripLinesTo(head, rest, |rest|);
    assert rest[|rest|..] == "";
    SpacesAreCode("");
  }

  /**
   * The breakpoint is itself a line comment, so the rest of its line is not
   * read by the destructive rules, although it is split off and run.
   */
  lemma SameLineIsNotRead(head: string, tail: string)
    requires CommentFree(head) && FreeOf(tail, "/*")
    requires forall i :: 0 <= i < |tail| ==> tail[i] != '\n'
    ensures StripSqlComments(head + STATEMENT_BREAKPOINT + tail) == head + " "
  {
    hide CommentFree, StripSqlComments, FreeOf;
    BreakpointIsLineMark();
    RestOfLineIsNotRead(head, STATEMENT_BREAKPOINT, tail);
  }

  lemma NoOpenerAcross(head: string, bp: string, tail: string)
    requires FreeOf(head, "/*") && FreeOf(tail, "/*") && (head == "" || head[|head| - 1] != '/')
    requires forall i :: 0 <= i < |bp| ==> bp[i] != '/' && bp[i] != '*'
    requires bp != ""
    ensures FreeOf(head + bp + tail, "/*")
  {
    var s := head + bp + tail;
    forall i
      ensures !OccursAt(s, "/*", i)
    {
      PairAt(s, "/*", i);
      PairAt(head, "/*", i);
      PairAt(tail, "/*", i - |head| - |bp|);
    }
  }

  /** A trailing space adds nothing to what the rules see. */
  lemma CleanThroughSpace(s: string)
    requires Clean(s)
    ensures Clean(s + " ")
  {
    hide Lex, HasDestructiveRow, HasRequiredColumnRows, Clean;
    SpaceIsSpace();
    LexThenSpaces(s, " ");
    CleanExactly(s);
    CleanExactly(s + " ");
  }

  /**
   * Two dashes start a comment for the linter wherever they stand. Inside a
   * quoted name they do not for the server, which runs what the linter has not read.
   */
  lemma QuotedDashesEscape(head: string, tail: string)
    requires CommentFree(head) && Clean(head) && FreeOf(tail, "/*")
    requires forall i :: 0 <= i < |tail| ==> tail[i] != '\n'
    ensures Clean(StripSqlComments(head + "--" + tail))
  {
    hide CommentFree, StripSqlComments, FreeOf, Clean;
    RestOfLineIsNotRead(head, "--", tail);
    CleanThroughSpace(head);
  }

  /**
   * A destructive statement written on the breakpoint's line passes the linter
   * after any clean statement, and is run all the same.
   */
  lemma SameLineEscapes(grandfathered: set<string>, tag: string, head: string, tail: string)
    requires CommentFree(head) && Clean(head) && CommentFree(tail) && !AddsRequiredColumn(tail)
    requires forall i :: 0 <= i < |tail| ==> tail[i] != '\n'
    ensures var sql := head + STATEMENT_BREAKPOINT + tail;
      Lint(grandfathered, tag, sql) == [] && SplitMigrationStatements(sql) == [head, tail]
  {
    hide HasPhrase, StripSqlComments, Trim, FreeOf, OccursAt, IndexOf, AddsRequiredColumn, DestructiveIssues,
         STATEMENT_BREAKPOINT;
    var bp := STATEMENT_BREAKPOINT;
    var sql := head + bp + tail;
    SameLineIsNotRead(head, tail);
    CleanThroughSpace(head);
    BreakpointIsLineMark();
    CommentFreeHasNoBreakpoint(head, bp);
    CommentFreeHasNoBreakpoint(tail, bp);
    BreakpointIsBorderless();
    FirstOccurrence(head, bp, tail);
    SplitOfFree(tail, bp);
    assert sql[..|head|] == head && sql[|head| + |bp|..] == tail;
    assert SplitOn(sql, bp) == [head, tail];
    TrimTwo(head, tail);
    CommentFreeIsCode(head);
    CommentFreeIsCode(tail);
    NoIssuesInTwo(head, tail);
  }

  lemma TrimTwo(a: string, b: string)
    requires Trim(a) == a && Trim(b) == b && a != "" && b != ""
    ensures TrimAll([a, b]) == [a, b]
  {
    hide Trim;
    assert [a, b][1..] == [b];
    assert TrimAll([b]) == [b] + TrimAll([b][1..]);
  }

  lemma NoIssuesInTwo(a: string, b: string)
    requires !AddsRequiredColumn(StripSqlComments(a)) && !AddsRequiredColumn(StripSqlComments(b))
    ensures StatementIssues([a, b]) == []
  {
    hide AddsRequiredColumn, StripSqlComments;
    assert [a, b][..1] == [a];
    assert StatementIssues([a]) == [];
  }

  // ---- A block comment across breakpoints ---------------------------------------------------

  lemma {:induction false} NoOpenerIsClosed(s: string)
    requires FreeOf(s, "/*")
    ensures Closed(s) && StripBlocks(s) == s
    decreases |s|
  {
    if s != "" {
      forall i
        ensures !OccursAt(s[1..], "/*", i)
      {
        OccursInSuffix(s, "/*", 1, i);
      }
      NoOpenerIsClosed(s[1..]);
      StripBlocksCopies(s);
    }
  }

  /** What stands between an opener and the first closer after it is one space to the rules. */
  lemma BlockIsSpace(a: string, inner: string, e: string)
    requires FreeOf(a, "/*") && FreeOf(inner, "*/") && FreeOf(e, "/*")
    ensures StripBlocks(a + ("/*" + inner + "*/" + e)) == a + " " + e
  {
    hide StripBlocks, Closed, OccursAt, IndexOf, FreeOf;
    var block := "/*" + inner + "*/" + e;
    NoOpenerIsClosed(a);
    NoOpenerIsClosed(e);
    BlocksConcat(a, block);
    FirstCloser(inner, e);
    StripBlocksCloses(block, 2 + |inner|);
    assert block[2 + |inner| + 2..] == e;
    assert a + (" " + e) == a + " " + e;
  }

  lemma FirstCloser(inner: string, e: string)
    requires FreeOf(inner, "*/")
    ensures var block := "/*" + inner + "*/" + e;
      OccursAt(block, "/*", 0) && IndexOf(block, "*/", 2) == Some(2 + |inner|)
  {
    hide IndexOf;
    var block := "/*" + inner + "*/" + e;
    PairAt(block, "/*", 0);
    PairAt(block, "*/", 2 + |inner|);
    forall i | 2 <= i < 2 + |inner|
      ensures !OccursAt(block, "*/", i)
    {
      PairAt(block, "*/", i);
      PairAt(inner, "*/", i - 2);
    }
  }

  lemma NoDashesAcross(a: string, e: string)
    requires FreeOf(a, "--") && FreeOf(e, "--")
    ensures StripLines(a + " " + e) == a + " " + e
  {
    var s := a + " " + e;
    forall i
      ensures !OccursAt(s, "--", i)
    {
      PairAt(s, "--", i);
      PairAt(a, "--", i);
      PairAt(e, "--", i - |a| - 1);
    }
    StripLinesIdentity(s);
  }

  lemma NewlineThenStatement(s: string)
    requires IsStatement(s)
    ensures Trim("\n" + s) == s && FreeOf("\n" + s, STATEMENT_BREAKPOINT)
  {
    var t, bp := "\n" + s, STATEMENT_BREAKPOINT;
    assert t[1..] == s;
    TrimmedStarts(s);
    assert TrimLeft(t) == TrimLeft(s);
    forall i
      ensures !OccursAt(t, bp, i)
    {
      OccursInSuffix(t, bp, 1, i - 1);
      assert |bp| <= |t| ==> t[0..|bp|][0] == '\n';
    }
  }

  lemma TrimmedStarts(s: string)
    requires s != "" && Trim(s) == s
    ensures TrimLeft(s) == s
  {
    var l := TrimLeft(s);
    var k :| 0 <= k <= |s| && l == s[k..];
    assert |Trim(s)| <= |l|;
  }

  /** Three statements, each breakpoint ending its line. */
  function ThreeLines(x: string, y: string, z: string): string {
    x + STATEMENT_BREAKPOINT + "\n" + y + STATEMENT_BREAKPOINT + "\n" + z
  }

  lemma ThreeAreSplit(x: string, y: string, z: string)
    requires IsStatement(x) && IsStatement(y) && IsStatement(z)
    ensures SplitMigrationStatements(ThreeLines(x, y, z)) == [x, y, z]
  {
    hide Trim, FreeOf, IsStatement, STATEMENT_BREAKPOINT;
    var bp := STATEMENT_BREAKPOINT;
    var pieces := [x, "\n" + y, "\n" + z];
    NewlineThenStatement(y);
    NewlineThenStatement(z);
    StatementFacts(x);
    StatementFacts(y);
    StatementFacts(z);
    BreakpointIsBorderless();
    assert Join(pieces[2..], bp) == "\n" + z;
    assert pieces[1..][1..] == pieces[2..];
    assert Join(pieces[1..], bp) == "\n" + y + bp + ("\n" + z);
    assert Join(pieces, bp) == x + bp + ("\n" + y + bp + ("\n" + z)) == ThreeLines(x, y, z);
    SplitUndoesJoin(pieces, bp);
    TrimThree(pieces, x, y, z);
  }

  lemma StatementFacts(s: string)
    requires IsStatement(s)
    ensures s != "" && Trim(s) == s && FreeOf(s, STATEMENT_BREAKPOINT)
  {
  }

  lemma TrimThree(pieces: seq<string>, x: string, y: string, z: string)
    requires |pieces| == 3 && x != "" && y != "" && z != ""
    requires Trim(pieces[0]) == x && Trim(pieces[1]) == y && Trim(pieces[2]) == z
    ensures TrimAll(pieces) == [x, y, z]
  {
    hide Trim;
    assert pieces[1..][1..] == pieces[2..] && pieces[2..][1..] == [];
    assert TrimAll(pieces[2..]) == [z] + TrimAll([]);
    assert TrimAll(pieces[1..]) == [y] + TrimAll(pieces[2..]);
  }

  /**
   * A comment opened in one statement, inside a quoted text, say, and closed in
   * a later one: the destructive rules read the file as if nothing stood
   * between, and the statements between are split off and run.
   */
  lemma BlockAcrossEscapes(
    grandfathered: set<string>, tag: string, a: string, b: string, y: string, d: string, e: string)
    requires IsStatement(a + "/*" + b) && IsStatement(y) && IsStatement(d + "*/" + e)
    requires FreeOf(a, "/*") && FreeOf(e, "/*") && FreeOf(a, "--") && FreeOf(e, "--")
    requires FreeOf(ThreeLines(b, y, d), "*/")
    requires DestructiveIssues(DESTRUCTIVE_RULES, a + " " + e) == []
    requires forall s :: s in [a + "/*" + b, y, d + "*/" + e] ==> !AddsRequiredColumn(StripSqlComments(s))
    ensures var sql := ThreeLines(a + "/*" + b, y, d + "*/" + e);
      Lint(grandfathered, tag, sql) == [] && SplitMigrationStatements(sql) == [a + "/*" + b, y, d + "*/" + e]
  {
    hide DestructiveIssues, AddsRequiredColumn, StripBlocks, StripLines, FreeOf, IsStatement, SplitMigrationStatements,
         StatementIssues, STATEMENT_BREAKPOINT;
    var x, z := a + "/*" + b, d + "*/" + e;
    var sql := ThreeLines(x, y, z);
    assert sql == a + ("/*" + ThreeLines(b, y, d) + "*/" + e);
    BlockIsSpace(a, ThreeLines(b, y, d), e);
    NoDashesAcross(a, e);
    ThreeAreSplit(x, y, z);
    StatementsClean([x, y, z]);
  }
}
