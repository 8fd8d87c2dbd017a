/**
 * The text functions of src/db/migrator.ts: comment stripping, statement
 * splitting, and the test for statements that run outside a transaction.
 * Each regular expression is written out as the scanner it denotes.
 */
module MigrationText {
  import opened Common

  const STATEMENT_BREAKPOINT := "--> statement-breakpoint"

  /** ECMAScript `\s`, which is also what `trim` removes. */
  predicate IsSpace(c: char) {
    '\t' <= c <= '\r' || c == ' ' || c == '\U{00A0}' || c == '\U{1680}' || '\U{2000}' <= c <= '\U{200A}' ||
    c == '\U{2028}' || c == '\U{2029}' || c == '\U{202F}' || c == '\U{205F}' || c == '\U{3000}' || c == '\U{FEFF}'
  }

  /** ECMAScript `\w`. */
  predicate IsWord(c: char) {
    'a' <= c <= 'z' || 'A' <= c <= 'Z' || '0' <= c <= '9' || c == '_'
  }

  /** The white space of ECMAScript, one by one: WhiteSpace and LineTerminator. */
  lemma SpacesAre(c: char)
    ensures IsSpace(c) <==>
      || c in "\t\n\U{000B}\U{000C}\r \U{00A0}\U{1680}\U{2028}\U{2029}\U{202F}\U{205F}\U{3000}\U{FEFF}"
      || c in "\U{2000}\U{2001}\U{2002}\U{2003}\U{2004}\U{2005}\U{2006}\U{2007}\U{2008}\U{2009}\U{200A}"
  {
  }

  /** The word characters, one by one. */
  lemma WordsAre(c: char)
    ensures IsWord(c) <==>
      || c in "abcdefghijklmnopqrstuvwxyz" || c in "ABCDEFGHIJKLMNOPQRSTUVWXYZ" || c in "0123456789" || c == '_'
  {
  }

  function UpperChar(c: char): char {
    if 'a' <= c <= 'z' then 'A' + (c - 'a') else c
  }

  function Upper(s: string): (r: string)
    ensures |r| == |s| && forall i :: 0 <= i < |s| ==> r[i] == UpperChar(s[i])
  {
    seq(|s|, i requires 0 <= i < |s| => UpperChar(s[i]))
  }

  // ---- Comment stripping ------------------------------------------------

  /** First pass: every block comment, matched lazily from the left, becomes one space. */
  function StripBlocks(s: string): string
    decreases |s|
  {
    if s == "" then ""
    else
      match if OccursAt(s, "/*", 0) then IndexOf(s, "*/", 2) else None
      case Some(close) => " " + StripBlocks(s[close + 2..])
      case None => [s[0]] + StripBlocks(s[1..])
  }

  /** Where the line holding position `from` ends. */
  function LineEnd(s: string, from: nat): (end: nat)
    requires from <= |s|
    ensures from <= end <= |s|
    decreases |s| - from
  {
    if from == |s| || s[from] == '\n' then from else LineEnd(s, from + 1)
  }

  /** Second pass: every `--` comment up to its line end becomes one space. */
  function StripLines(s: string): string
    decreases |s|
  {
    if s == "" then ""
    else if OccursAt(s, "--", 0) then " " + StripLines(s[LineEnd(s, 2)..])
    else [s[0]] + StripLines(s[1..])
  }

  function StripSqlComments(sql: string): string {
    StripLines(StripBlocks(sql))
  }

  lemma PairAt(s: string, pat: string, i: int)
    requires |pat| == 2
    ensures OccursAt(s, pat, i) <==> 0 <= i && i + 2 <= |s| && s[i] == pat[0] && s[i + 1] == pat[1]
  {
    if 0 <= i && i + 2 <= |s| {
      assert s[i..i + 2] == [s[i], s[i + 1]];
      assert pat == [pat[0], pat[1]];
    }
  }

  /** No block opener with a block closer after it. */
  ghost predicate NoBlock(s: string) {
    forall p, q :: OccursAt(s, "/*", p) && OccursAt(s, "*/", q) ==> q < p + 2
  }

  ghost predicate NoLine(s: string) {
    forall p :: !OccursAt(s, "--", p)
  }

  lemma NoBlockSuffix(s: string)
    requires s != "" && NoBlock(s)
    ensures NoBlock(s[1..])
  {
    forall p, q | OccursAt(s[1..], "/*", p) && OccursAt(s[1..], "*/", q)
      ensures q < p + 2
    {
      OccursInSuffix(s, "/*", 1, p);
      OccursInSuffix(s, "*/", 1, q);
    }
  }

  lemma {:induction false} StripBlocksIdentity(s: string)
    requires NoBlock(s)
    ensures StripBlocks(s) == s
    decreases |s|
  {
    if s != "" {
      NoBlockSuffix(s);
      StripBlocksIdentity(s[1..]);
    }
  }

  /** Putting one character back in front keeps a text free of block comments. */
  lemma NoBlockCons(c: char, t: string)
    requires NoBlock(t)
    requires c == '/' && t != "" && t[0] == '*' ==> forall q :: 1 <= q ==> !OccursAt(t, "*/", q)
    ensures NoBlock([c] + t)
  {
    var s := [c] + t;
    assert s[1..] == t;
    forall p, q | OccursAt(s, "/*", p) && OccursAt(s, "*/", q)
      ensures q < p + 2
    {
      if q >= p + 2 {
        OccursInSuffix(s, "*/", 1, q - 1);
        OccursInSuffix(s, "/*", 1, p - 1);
        PairAt(s, "/*", p);
      }
    }
  }

  lemma {:induction false} StripBlocksClean(s: string)
    ensures NoBlock(StripBlocks(s))
    ensures StripBlocks(s) != "" ==> s != "" && StripBlocks(s)[0] in [' ', s[0]]
    decreases |s|
  {
    if s != "" {
      var close := if OccursAt(s, "/*", 0) then IndexOf(s, "*/", 2) else None;
      if close.Some? {
        StripBlocksClean(s[close.value + 2..]);
        NoBlockCons(' ', StripBlocks(s[close.value + 2..]));
      } else if OccursAt(s, "/*", 0) {
        // An unterminated opener: nothing after it can close a comment.
        assert NoBlock(s);
        StripBlocksIdentity(s);
      } else {
        StripBlocksClean(s[1..]);
        var t := StripBlocks(s[1..]);
        PairAt(s, "/*", 0);
        NoBlockCons(s[0], t);
      }
    }
  }

  /** A block closer left by the second pass was already there, no further to the left. */
  lemma {:induction false} CloserMapsBack(s: string, q: nat) returns (q': nat)
    requires OccursAt(StripLines(s), "*/", q)
    ensures q <= q' && OccursAt(s, "*/", q')
    decreases |s|
  {
    var t := StripLines(s);
    PairAt(t, "*/", q);
    var cut := if OccursAt(s, "--", 0) then LineEnd(s, 2) else 1;
    assert t[1..] == StripLines(s[cut..]);
    if q == 0 {
      StripLinesHead(s[1..]);
      PairAt(s, "*/", 0);
      q' := 0;
    } else {
      OccursInSuffix(t, "*/", 1, q - 1);
      var r := CloserMapsBack(s[cut..], q - 1);
      OccursInSuffix(s, "*/", cut, r);
      q' := cut + r;
    }
  }

  lemma StripLinesHead(s: string)
    ensures StripLines(s) != "" ==> s != "" && StripLines(s)[0] in [' ', s[0]]
    ensures s != "" ==> StripLines(s) != ""
  {
  }

  lemma {:induction false} StripLinesKeepsNoBlock(s: string)
    requires NoBlock(s)
    ensures NoBlock(StripLines(s))
    decreases |s|
  {
    if s != "" {
      var cut := if OccursAt(s, "--", 0) then LineEnd(s, 2) else 1;
      var t := StripLines(s[cut..]);
      NoBlockDrop(s, cut);
      StripLinesKeepsNoBlock(s[cut..]);
      if cut == 1 && s[0] == '/' && t != "" && t[0] == '*' {
        StripLinesHead(s[1..]);
        assert s[0..2] == "/*";
        assert OccursAt(s, "/*", 0);
        forall q | 1 <= q
          ensures !OccursAt(t, "*/", q)
        {
          if OccursAt(t, "*/", q) {
            var q' := CloserMapsBack(s[1..], q);
            OccursInSuffix(s, "*/", 1, q');
          }
        }
      }
      NoBlockCons(if cut == 1 then s[0] else ' ', t);
    }
  }

  lemma NoBlockDrop(s: string, cut: nat)
    requires NoBlock(s) && cut <= |s|
    ensures NoBlock(s[cut..])
  {
    forall p, q | OccursAt(s[cut..], "/*", p) && OccursAt(s[cut..], "*/", q)
      ensures q < p + 2
    {
      OccursInSuffix(s, "/*", cut, p);
      OccursInSuffix(s, "*/", cut, q);
    }
  }

  lemma {:induction false} StripLinesClean(s: string)
    ensures NoLine(StripLines(s))
    decreases |s|
  {
    if s != "" {
      var cut := if OccursAt(s, "--", 0) then LineEnd(s, 2) else 1;
      var t := StripLines(s);
      var rest := StripLines(s[cut..]);
      StripLinesClean(s[cut..]);
      assert t[1..] == rest;
      StripLinesHead(s[cut..]);
      PairAt(s, "--", 0);
      forall p
        ensures !OccursAt(t, "--", p)
      {
        PairAt(t, "--", p);
        OccursInSuffix(t, "--", 1, p - 1);
      }
    }
  }

  lemma {:induction false} StripLinesIdentity(s: string)
    requires NoLine(s)
    ensures StripLines(s) == s
    decreases |s|
  {
    if s != "" {
      forall p
        ensures !OccursAt(s[1..], "--", p)
      {
        OccursInSuffix(s, "--", 1, p);
      }
      StripLinesIdentity(s[1..]);
    }
  }

  /** For every text, what is left holds no comment of either kind. */
  lemma StripRemovesComments(sql: string)
    ensures NoBlock(StripSqlComments(sql))
    ensures NoLine(StripSqlComments(sql))
  {
    StripBlocksClean(sql);
    StripLinesKeepsNoBlock(StripBlocks(sql));
    StripLinesClean(StripBlocks(sql));
  }

  /** Stripping finds nothing more the second time. */
  lemma StripIdempotent(sql: string)
    ensures StripSqlComments(StripSqlComments(sql)) == StripSqlComments(sql)
  {
    StripRemovesComments(sql);
    StripBlocksIdentity(StripSqlComments(sql));
    StripLinesIdentity(StripSqlComments(sql));
  }

  // ---- Splitting ---------------------------------------------------------

  function TrimLeft(s: string): (r: string)
    ensures r != "" ==> !IsSpace(r[0])
    ensures exists k :: 0 <= k <= |s| && r == s[k..]
    decreases |s|
  {
    if s != "" && IsSpace(s[0]) then
      var r := TrimLeft(s[1..]);
      assert forall k :: 0 <= k <= |s| - 1 ==> s[1..][k..] == s[k + 1..];
      r
    else assert s == s[0..]; s
  }

  function TrimRight(s: string): (r: string)
    ensures r != "" ==> !IsSpace(r[|r| - 1])
    ensures |r| <= |s| && r == s[..|r|]
    decreases |s|
  {
    if s != "" && IsSpace(s[|s| - 1]) then TrimRight(s[..|s| - 1]) else s
  }

  function Trim(s: string): (r: string) {
    TrimRight(TrimLeft(s))
  }

  /** `String.prototype.split` with a non-empty separator. */
  function SplitOn(s: string, sep: string): (r: seq<string>)
    requires sep != ""
    ensures r != []
    decreases |s|
  {
    match IndexOf(s, sep, 0)
    case None => [s]
    case Some(i) => [s[..i]] + SplitOn(s[i + |sep|..], sep)
  }

  function TrimAll(pieces: seq<string>): (r: seq<string>)
  {
    if pieces == [] then []
    else (if Trim(pieces[0]) != "" then [Trim(pieces[0])] else []) + TrimAll(pieces[1..])
  }

  function SplitMigrationStatements(sql: string): seq<string> {
    TrimAll(SplitOn(sql, STATEMENT_BREAKPOINT))
  }

  function Join(pieces: seq<string>, sep: string): string {
    if pieces == [] then ""
    else if |pieces| == 1 then pieces[0]
    else pieces[0] + sep + Join(pieces[1..], sep)
  }

  ghost predicate FreeOf(s: string, sep: string) {
    forall i :: !OccursAt(s, sep, i)
  }

  /** White space at neither end. */
  predicate IsTrimmed(s: string) {
    s != "" ==> !IsSpace(s[0]) && !IsSpace(s[|s| - 1])
  }

  ghost predicate IsStatement(s: string) {
    s != "" && IsTrimmed(s) && FreeOf(s, STATEMENT_BREAKPOINT)
  }

  lemma TrimmedIsKept(s: string)
    requires IsTrimmed(s)
    ensures TrimLeft(s) == s && TrimRight(s) == s
  {
  }

  /** What `trim` leaves has white space at neither end, and a text that has none there is left as it is. */
  lemma TrimmedExactly(s: string)
    ensures IsTrimmed(Trim(s)) && (Trim(s) == s <==> IsTrimmed(s))
  {
    hide IsSpace, TrimLeft, TrimRight;
    assert Trim(s) != "" ==> Trim(s)[0] == TrimLeft(s)[0];
    if IsTrimmed(s) {
      TrimmedIsKept(s);
    }
  }

  /** `sep` shifted right by `d` agrees with itself. */
  ghost predicate AgreesWithShift(sep: string, d: nat) {
    forall k: nat :: d + k < |sep| ==> sep[d + k] == sep[k]
  }

  /** No proper suffix of `sep` is also a prefix, so two occurrences never overlap. */
  ghost predicate Borderless(sep: string) {
    sep != "" && forall d: nat :: 0 < d < |sep| ==> !AgreesWithShift(sep, d)
  }

  lemma BreakpointIsBorderless()
    ensures Borderless(STATEMENT_BREAKPOINT)
  {
    var bp := STATEMENT_BREAKPOINT;
    assert bp[0] == bp[1] == '-' && bp[2] == '>' && bp[14] == 'b';
    forall d: nat | 0 < d < |bp|
      ensures !AgreesWithShift(bp, d)
    {
      assert d != 1 && d != 13 ==> bp[d + 0] != '-';
      assert d == 1 || d == 13 ==> bp[d + 1] != '-';
    }
  }

  lemma OccurrencesDoNotOverlap(s: string, sep: string, i: int, k: int)
    requires Borderless(sep)
    requires OccursAt(s, sep, i) && OccursAt(s, sep, k) && i < k
    ensures i + |sep| <= k
  {
    forall m: nat | m < |sep|
      ensures s[i + m] == sep[m] == s[k + m]
    {
      assert s[i..i + |sep|][m] == sep[m] == s[k..k + |sep|][m];
    }
    assert k - i < |sep| ==> AgreesWithShift(sep, k - i) by {
      forall m: nat | k - i + m < |sep|
        ensures sep[k - i + m] == sep[m]
      {
        assert s[i + (k - i + m)] == s[k + m];
      }
    }
  }

  lemma FirstOccurrence(head: string, sep: string, tail: string)
    requires Borderless(sep) && FreeOf(head, sep)
    ensures IndexOf(head + sep + tail, sep, 0) == Some(|head|)
  {
    var s := head + sep + tail;
    assert s[|head|..|head| + |sep|] == sep;
    assert OccursAt(s, sep, |head|);
    assert s[..|head|] == head;
    forall i | 0 <= i < |head|
      ensures !OccursAt(s, sep, i)
    {
      OccursInPrefix(s, sep, |head|, i);
      if OccursAt(s, sep, i) {
        OccurrencesDoNotOverlap(s, sep, i, |head|);
      }
    }
  }

  /** Splitting undoes joining, for any pieces that do not hold the separator. */
  lemma {:induction false} SplitUndoesJoin(pieces: seq<string>, sep: string)
    requires Borderless(sep) && pieces != []
    requires forall i :: 0 <= i < |pieces| ==> FreeOf(pieces[i], sep)
    ensures SplitOn(Join(pieces, sep), sep) == pieces
    decreases |pieces|
  {
    if |pieces| > 1 {
      var head, tail := pieces[0], Join(pieces[1..], sep);
      FirstOccurrence(head, sep, tail);
      assert (head + sep + tail)[..|head|] == head;
      assert (head + sep + tail)[|head| + |sep|..] == tail;
      SplitUndoesJoin(pieces[1..], sep);
    }
  }

  lemma {:induction false} TrimAllKeeps(stmts: seq<string>)
    requires forall i :: 0 <= i < |stmts| ==> IsStatement(stmts[i])
    ensures TrimAll(stmts) == stmts
  {
    if stmts != [] {
      TrimAllKeeps(stmts[1..]);
    }
  }

  /** A file written as a join of statements is read back as those statements. */
  lemma StatementsRoundTrip(stmts: seq<string>)
    requires forall s :: s in stmts ==> IsStatement(s)
    ensures SplitMigrationStatements(Join(stmts, STATEMENT_BREAKPOINT)) == stmts
  {
    if stmts != [] {
      BreakpointIsBorderless();
      assert forall i :: 0 <= i < |stmts| ==> IsStatement(stmts[i]);
      SplitUndoesJoin(stmts, STATEMENT_BREAKPOINT);
      TrimAllKeeps(stmts);
    } else {
      assert SplitOn("", STATEMENT_BREAKPOINT) == [""];
      assert TrimLeft("") == "";
      assert TrimAll([""]) == [] + TrimAll([""][1..]);
    }
  }

  lemma {:induction false} SplitPiecesFree(s: string, sep: string)
    requires sep != ""
    ensures forall i :: 0 <= i < |SplitOn(s, sep)| ==> FreeOf(SplitOn(s, sep)[i], sep)
    decreases |s|
  {
    var at := IndexOf(s, sep, 0);
    if at.Some? {
      forall i
        ensures !OccursAt(s[..at.value], sep, i)
      {
        OccursInPrefix(s, sep, at.value, i);
      }
      SplitPiecesFree(s[at.value + |sep|..], sep);
    }
  }

  lemma TrimKeepsFree(s: string, sep: string)
    requires FreeOf(s, sep)
    ensures FreeOf(Trim(s), sep)
    ensures Trim(Trim(s)) == Trim(s)
  {
    var l := TrimLeft(s);
    var t := Trim(s);
    var k :| 0 <= k <= |s| && l == s[k..];
    assert t != "" ==> t[0] == l[0];
    forall i
      ensures !OccursAt(t, sep, i)
    {
      OccursInPrefix(l, sep, |t|, i);
      OccursInSuffix(s, sep, k, i);
    }
  }

  lemma {:induction false} TrimAllClean(pieces: seq<string>, sep: string)
    requires forall i :: 0 <= i < |pieces| ==> FreeOf(pieces[i], sep)
    ensures forall s :: s in TrimAll(pieces) ==> s != "" && Trim(s) == s && FreeOf(s, sep)
  {
    if pieces != [] {
      TrimAllClean(pieces[1..], sep);
      TrimKeepsFree(pieces[0], sep);
    }
  }

  /** Every statement read from any file is non-empty, trimmed and free of the breakpoint. */
  lemma SplitYieldsStatements(sql: string)
    ensures forall s :: s in SplitMigrationStatements(sql) ==> IsStatement(s)
  {
    SplitPiecesFree(sql, STATEMENT_BREAKPOINT);
    TrimAllClean(SplitOn(sql, STATEMENT_BREAKPOINT), STATEMENT_BREAKPOINT);
  }

  // ---- Keyword phrases -----------------------------------------------------

  function SkipSpaces(s: string, from: nat): (end: nat)
    requires from <= |s|
    ensures from <= end <= |s|
    decreases |s| - from
  {
    if from < |s| && IsSpace(s[from]) then SkipSpaces(s, from + 1) else from
  }

  /** No word character ends just before `i`. */
  predicate WordStarts(s: string, i: nat) {
    i == 0 || i > |s| || !IsWord(s[i - 1])
  }

  predicate WordEnds(s: string, i: nat) {
    i >= |s| || !IsWord(s[i])
  }

  /** The upper-case word `w` is at position `i`, ignoring case. */
  predicate WordAt(s: string, w: string, i: nat) {
    i + |w| <= |s| && forall k :: 0 <= k < |w| ==> UpperChar(s[i + k]) == w[k]
  }

  /** `w1\s+w2\s+...wn\b`, ignoring case, from position `i`. */
  predicate PhraseAt(s: string, words: seq<string>, i: nat)
    requires words != []
    decreases |words|
  {
    var end := i + |words[0]|;
    WordAt(s, words[0], i) &&
    if |words| == 1 then WordEnds(s, end)
    else
      var next := SkipSpaces(s, end);
      end < next && PhraseAt(s, words[1..], next)
  }

  predicate PhraseStartsAt(s: string, words: seq<string>, i: nat)
    requires words != []
  {
    WordStarts(s, i) && PhraseAt(s, words, i)
  }

  /** `/\bw1\s+w2\s+...wn\b/i` matches somewhere in `s`. */
  predicate HasPhrase(s: string, words: seq<string>)
    requires words != []
  {
    exists i: nat | i <= |s| :: PhraseStartsAt(s, words, i)
  }

  predicate AreSpaces(s: string, from: nat, end: nat) {
    from <= end <= |s| && forall i :: from <= i < end ==> IsSpace(s[i])
  }

  lemma {:induction false} SpacesEndAt(s: string, from: nat, end: nat)
    requires AreSpaces(s, from, end) && (end < |s| ==> !IsSpace(s[end]))
    ensures SkipSpaces(s, from) == end
    decreases |s| - from
  {
    if from < end {
      SpacesEndAt(s, from + 1, end);
    }
  }

  lemma {:induction false} SpacesSkipped(s: string, from: nat)
    requires from <= |s|
    ensures AreSpaces(s, from, SkipSpaces(s, from))
    decreases |s| - from
  {
    if from < |s| && IsSpace(s[from]) {
      SpacesSkipped(s, from + 1);
    }
  }

  predicate LineStarts(s: string, i: nat) {
    i == 0 || (i <= |s| && s[i - 1] in "\n\r\U{2028}\U{2029}")
  }

  /** ECMAScript's line terminators. */
  predicate IsLineBreak(c: char) {
    c == '\n' || c == '\r' || c == '\U{2028}' || c == '\U{2029}'
  }

  /** A line begins at `i`. */
  predicate BeginsLine(s: string, i: nat) {
    i == 0 || (i <= |s| && IsLineBreak(s[i - 1]))
  }

  lemma BeginsExactly(s: string, i: nat)
    ensures LineStarts(s, i) <==> BeginsLine(s, i)
  {
  }

  // ---- Statements outside the transaction ------------------------------------

  predicate IsBlank(c: char) {
    c == ' ' || c == '\t'
  }

  function SkipBlanks(s: string, from: nat): (end: nat)
    requires from <= |s|
    ensures from <= end <= |s|
    decreases |s| - from
  {
    if from < |s| && IsBlank(s[from]) then SkipBlanks(s, from + 1) else from
  }

  /** `/^\s*--[ \t]*@no-transaction\b/m` */
  predicate HasNoTransactionMark(s: string) {
    exists i: nat | i <= |s| :: MarkAt(s, i)
  }

  predicate MarkAt(s: string, i: nat)
    requires i <= |s|
  {
    && LineStarts(s, i)
    && var dashes := SkipSpaces(s, i);
       OccursAt(s, "--", dashes) &&
       var mark := SkipBlanks(s, dashes + 2);
       OccursAt(s, "@no-transaction", mark) && WordEnds(s, mark + 15)
  }

  predicate RunsOutsideTransaction(statement: string) {
    HasNoTransactionMark(statement) ||
    var code := StripSqlComments(statement);
    HasPhrase(code, ["CONCURRENTLY"]) || HasPhrase(code, ["VALIDATE", "CONSTRAINT"])
  }

  predicate AreBlanks(s: string, from: nat, end: nat) {
    from <= end <= |s| && forall i :: from <= i < end ==> s[i] == ' ' || s[i] == '\t'
  }

  lemma {:induction false} BlanksEndAt(s: string, from: nat, end: nat)
    requires AreBlanks(s, from, end) && (end < |s| ==> s[end] != ' ' && s[end] != '\t')
    ensures SkipBlanks(s, from) == end
    decreases |s| - from
  {
    if from < end {
      BlanksEndAt(s, from + 1, end);
    }
  }

  lemma {:induction false} BlanksSkipped(s: string, from: nat)
    requires from <= |s|
    ensures AreBlanks(s, from, SkipBlanks(s, from))
    decreases |s| - from
  {
    if from < |s| && IsBlank(s[from]) {
      BlanksSkipped(s, from + 1);
    }
  }

  /**
   * The mark as it reads: at the start of a line white space, two dashes, spaces
   * and tabs, and `@no-transaction` where no word character follows it.
   */
  ghost predicate IsMarkLine(s: string, i: nat, dashes: nat, mark: nat) {
    && BeginsLine(s, i) && AreSpaces(s, i, dashes) && OccursAt(s, "--", dashes) && AreBlanks(s, dashes + 2, mark)
    && OccursAt(s, "@no-transaction", mark)
    && (mark + |"@no-transaction"| < |s| ==> !IsWord(s[mark + |"@no-transaction"|]))
  }

  ghost predicate HasMarkLine(s: string) {
    exists i: nat, dashes: nat, mark: nat :: IsMarkLine(s, i, dashes, mark)
  }

  /** The scan finds the mark exactly where a line of that shape stands. */
  lemma MarkExactly(s: string)
    ensures HasNoTransactionMark(s) <==> HasMarkLine(s)
  {
    hide IsMarkLine, MarkAt;
    if HasNoTransactionMark(s) {
      var i: nat :| i <= |s| && MarkAt(s, i);
      MarkReads(s, i);
    }
    if HasMarkLine(s) {
      var i: nat, dashes: nat, mark: nat :| IsMarkLine(s, i, dashes, mark);
      MarkIsFound(s, i, dashes, mark);
    }
  }

  lemma MarkReads(s: string, i: nat)
    requires i <= |s| && MarkAt(s, i)
    ensures HasMarkLine(s)
  {
    BeginsExactly(s, i);
    hide IsSpace, IsWord, LineStarts, BeginsLine;
    var dashes := SkipSpaces(s, i);
    var mark := SkipBlanks(s, dashes + 2);
    SpacesSkipped(s, i);
    BlanksSkipped(s, dashes + 2);
    assert IsMarkLine(s, i, dashes, mark);
  }

  lemma MarkIsFound(s: string, i: nat, dashes: nat, mark: nat)
    requires IsMarkLine(s, i, dashes, mark)
    ensures i <= |s| && MarkAt(s, i)
  {
    DashIsNoSpace();
    BeginsExactly(s, i);
    hide IsSpace, IsWord, LineStarts;
    assert s[dashes] == s[dashes..dashes + 2][0] == '-';
    assert s[mark] == s[mark..mark + |"@no-transaction"|][0] == '@';
    SpacesEndAt(s, i, dashes);
    BlanksEndAt(s, dashes + 2, mark);
  }

  lemma DashIsNoSpace()
    ensures !IsSpace('-')
  {
  }
}
