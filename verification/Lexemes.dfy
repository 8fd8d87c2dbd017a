/**
 * What a keyword pattern sees of a text: its words and its other characters, in
 * order, with the white space between them gone. On every text a pattern
 * matches exactly where its words stand in a row.
 */
module Lexemes {
  import opened Common
  import opened MigrationText

  datatype Lexeme = Word(text: string) | Sep(c: char)

  function WordEnd(s: string, from: nat): (end: nat)
    requires from <= |s|
    ensures from <= end <= |s|
    ensures forall i :: from <= i < end ==> IsWord(s[i])
    ensures end < |s| ==> !IsWord(s[end])
    decreases |s| - from
  {
    if from < |s| && IsWord(s[from]) then WordEnd(s, from + 1) else from
  }

  /** The longest words of a text, and every other character that is not white space. */
  function Lex(s: string): seq<Lexeme>
    decreases |s|
  {
    if s == "" then []
    else if IsWord(s[0]) then
      var end := WordEnd(s, 1);
      [Word(s[..end])] + Lex(s[end..])
    else if IsSpace(s[0]) then Lex(s[1..])
    else [Sep(s[0])] + Lex(s[1..])
  }

  /** `t` is the upper-case word `w`, ignoring case. */
  predicate SameWord(t: string, w: string) {
    |t| == |w| && forall i :: 0 <= i < |t| ==> UpperChar(t[i]) == w[i]
  }

  predicate Is(l: Lexeme, w: string) {
    l.Word? && SameWord(l.text, w)
  }

  predicate IsKeyword(w: string) {
    w != "" && forall i :: 0 <= i < |w| ==> 'A' <= w[i] <= 'Z'
  }

  predicate AllKeywords(words: seq<string>) {
    words != [] && forall i :: 0 <= i < |words| ==> IsKeyword(words[i])
  }

  /** The words stand in a row from lexeme `i`. */
  predicate RowAt(lexemes: seq<Lexeme>, words: seq<string>, i: nat) {
    i + |words| <= |lexemes| && forall k :: 0 <= k < |words| ==> Is(lexemes[i + k], words[k])
  }

  ghost predicate HasRow(lexemes: seq<Lexeme>, words: seq<string>) {
    exists i: nat :: RowAt(lexemes, words, i)
  }

  // ---- Lexing a text in pieces ------------------------------------------------------

  predicate Joins(a: string, b: string) {
    a != "" && b != "" && IsWord(a[|a| - 1]) && IsWord(b[0])
  }

  lemma {:induction false} WordEndCut(a: string, b: string, from: nat)
    requires from <= |a|
    ensures WordEnd(a, from) < |a| || b == "" || !IsWord(b[0]) ==> WordEnd(a + b, from) == WordEnd(a, from)
    decreases |a| - from
  {
    if from < |a| && IsWord(a[from]) {
      WordEndCut(a, b, from + 1);
    }
  }

  /** Two texts lex apart unless a word runs across the seam. */
  lemma {:induction false} LexConcat(a: string, b: string)
    requires !Joins(a, b)
    ensures Lex(a + b) == Lex(a) + Lex(b)
    decreases |a|
  {
    hide IsWord, IsSpace;
    var s := a + b;
    if a == "" {
      assert s == b;
    } else if IsWord(a[0]) {
      var end := WordEnd(a, 1);
      LexWordEnd(a, b);
      assert s[..end] == a[..end] && s[end..] == a[end..] + b;
      LexConcat(a[end..], b);
    } else {
      assert s[1..] == a[1..] + b;
      LexConcat(a[1..], b);
    }
  }

  lemma LexWordEnd(a: string, b: string)
    requires a != "" && IsWord(a[0]) && !Joins(a, b)
    ensures WordEnd(a + b, 1) == WordEnd(a, 1)
  {
    hide IsWord;
    WordEndCut(a, b, 1);
  }

  lemma {:induction false} LexSpaces(s: string)
    requires forall i :: 0 <= i < |s| ==> IsSpace(s[i])
    ensures Lex(s) == []
  {
    if s != "" {
      LexSpaces(s[1..]);
    }
  }

  // ---- Patterns ---------------------------------------------------------------------

  lemma {:induction false} SkipSpacesShift(a: string, b: string, i: nat)
    requires i <= |b|
    ensures SkipSpaces(a + b, |a| + i) == |a| + SkipSpaces(b, i)
    decreases |b| - i
  {
    if i < |b| && IsSpace(b[i]) {
      SkipSpacesShift(a, b, i + 1);
    }
  }

  lemma WordShift(a: string, b: string, w: string, i: nat)
    ensures WordAt(a + b, w, |a| + i) <==> WordAt(b, w, i)
  {
    if i + |w| <= |b| {
      forall k | 0 <= k < |w|
        ensures UpperChar((a + b)[|a| + i + k]) == w[k] <==> UpperChar(b[i + k]) == w[k]
      {
        assert (a + b)[|a| + i + k] == b[i + k];
      }
    }
  }

  lemma WordFits(s: string, w: string, i: nat)
    ensures WordAt(s, w, i) ==> i + |w| <= |s|
  {
  }

  lemma WordEndsShift(a: string, b: string, end: nat)
    ensures WordEnds(a + b, |a| + end) <==> WordEnds(b, end)
  {
  }

  lemma {:induction false} PhraseShift(a: string, b: string, words: seq<string>, i: nat)
    requires words != []
    ensures PhraseAt(a + b, words, |a| + i) <==> PhraseAt(b, words, i)
    decreases |words|
  {
    hide WordAt, IsSpace;
    WordFits(a + b, words[0], |a| + i);
    WordFits(b, words[0], i);
    WordEndsShift(a, b, i + |words[0]|);
    WordShift(a, b, words[0], i);
    var end := i + |words[0]|;
    if end <= |b| && |words| > 1 {
      SkipSpacesShift(a, b, end);
      PhraseShift(a, b, words[1..], SkipSpaces(b, end));
    }
  }

  /** After the seam a phrase starts in the whole text where it starts in the second part. */
  lemma PhraseStartShift(a: string, b: string, words: seq<string>, i: nat)
    requires words != [] && (i > 0 || a == "" || !IsWord(a[|a| - 1]))
    ensures PhraseStartsAt(a + b, words, |a| + i) <==> PhraseStartsAt(b, words, i)
  {
    hide PhraseAt;
    PhraseShift(a, b, words, i);
    if 0 < i <= |b| {
      assert (a + b)[|a| + i - 1] == b[i - 1];
    }
  }

  /** At the start of a word, a keyword matches only that whole word. */
  lemma WordAtToken(t: string, rest: string, w: string)
    requires t != "" && (forall i :: 0 <= i < |t| ==> IsWord(t[i])) && IsKeyword(w)
    requires rest == "" || !IsWord(rest[0])
    ensures WordAt(t + rest, w, 0) ==> |w| <= |t|
    ensures WordAt(t + rest, w, 0) && |w| == |t| <==> SameWord(t, w)
    ensures |w| < |t| ==> IsWord((t + rest)[|w|])
  {
    var s := t + rest;
    assert rest != "" ==> s[|t|] == rest[0];
    assert forall i :: 0 <= i < |t| ==> s[i] == t[i];
    assert |t| < |w| <= |s| ==> UpperChar(s[0 + |t|]) != w[|t|];
  }

  lemma RowStep(first: Lexeme, rest: seq<Lexeme>, words: seq<string>)
    requires words != []
    ensures RowAt([first] + rest, words, 0) <==> Is(first, words[0]) && (|words| == 1 || RowAt(rest, words[1..], 0))
  {
    hide Is;
    var all := [first] + rest;
    if RowAt(all, words, 0) {
      forall k | 0 <= k < |words| - 1
        ensures Is(rest[0 + k], words[1..][k])
      {
        assert Is(all[0 + (k + 1)], words[k + 1]);
      }
      assert Is(all[0 + 0], words[0]);
    }
    if Is(first, words[0]) && |words| > 1 && RowAt(rest, words[1..], 0) {
      forall k | 0 <= k < |words|
        ensures Is(all[0 + k], words[k])
      {
        assert k > 0 ==> Is(rest[0 + (k - 1)], words[1..][k - 1]);
      }
    }
  }

  lemma RowShift(a: seq<Lexeme>, b: seq<Lexeme>, words: seq<string>, i: nat)
    ensures RowAt(a + b, words, |a| + i) <==> RowAt(b, words, i)
  {
    hide Is;
    if i + |words| <= |b| {
      forall k | 0 <= k < |words|
        ensures Is((a + b)[|a| + i + k], words[k]) <==> Is(b[i + k], words[k])
      {
        assert (a + b)[|a| + i + k] == b[i + k];
      }
    }
  }

  /** White space in front is not seen. */
  lemma {:induction false} LexSkips(s: string, from: nat)
    requires from <= |s|
    ensures Lex(s[from..]) == Lex(s[SkipSpaces(s, from)..])
    decreases |s| - from
  {
    if from < |s| && IsSpace(s[from]) {
      assert s[from..][1..] == s[from + 1..];
      LexSkips(s, from + 1);
    }
  }

  /** The words after the first are looked for behind the white space that follows it. */
  lemma NextWordAt(t: string, rest: string, words: seq<string>)
    requires AllKeywords(words) && |words| > 1 && |words[0]| == |t|
    ensures
      var from := SkipSpaces(rest, 0);
      PhraseAt(t + rest, words, 0) <==>
        WordAt(t + rest, words[0], 0) && from > 0 && PhraseAt(rest[from..], words[1..], 0)
  {
    hide WordAt;
    var s, from := t + rest, SkipSpaces(rest, 0);
    SkipSpacesShift(t, rest, 0);
    var front := t + rest[..from];
    assert s == front + rest[from..];
    PhraseShift(front, rest[from..], words[1..], 0);
  }

  lemma ShortWordStops(s: string, words: seq<string>)
    requires AllKeywords(words) && |words| > 1 && |words[0]| < |s| && IsWord(s[|words[0]|])
    ensures !PhraseAt(s, words, 0)
  {
    WordStopsSpaces(s, |words[0]|);
  }

  lemma WordThenMore(t: string, rest: string, words: seq<string>)
    requires t != "" && (forall i :: 0 <= i < |t| ==> IsWord(t[i])) && AllKeywords(words) && |words| > 1
    requires rest == "" || !IsWord(rest[0])
    ensures
      var from := SkipSpaces(rest, 0);
      PhraseAt(t + rest, words, 0) <==>
        SameWord(t, words[0]) && from > 0 && PhraseAt(rest[from..], words[1..], 0)
  {
    var w := words[0];
    WordAtToken(t, rest, w);
    SameLength(t, w);
    hide SameWord, IsWord, IsSpace, WordAt;
    if |w| == |t| {
      NextWordAt(t, rest, words);
    } else if |w| < |t| {
      ShortWordStops(t + rest, words);
    }
  }

  lemma SameLength(t: string, w: string)
    ensures SameWord(t, w) ==> |t| == |w|
  {
  }

  lemma WordStopsSpaces(s: string, i: nat)
    requires i < |s| && IsWord(s[i])
    ensures SkipSpaces(s, i) == i
  {
  }

  /** Where a text starts with no white space, a pattern matches at its start exactly as its words head the lexemes. */
  lemma {:induction false} PhraseAtLex(s: string, words: seq<string>)
    requires AllKeywords(words) && (s == "" || !IsSpace(s[0]))
    ensures PhraseAt(s, words, 0) <==> RowAt(Lex(s), words, 0)
    decreases |words|
  {
    hide SameWord, Lex;
    if s == "" || !IsWord(s[0]) {
      NoWordNoPhrase(s, words);
    } else {
      var t, rest := s[..WordEnd(s, 1)], s[WordEnd(s, 1)..];
      assert s == t + rest;
      LexOfWord(s);
      RowStep(Word(t), Lex(rest), words);
      if |words| == 1 {
        WordAtToken(t, rest, words[0]);
        SameLength(t, words[0]);
      } else {
        WordThenMore(t, rest, words);
        var from := SkipSpaces(rest, 0);
        LexSkips(rest, 0);
        assert rest[0..] == rest;
        if from > 0 {
          SpacesEnd(rest);
          PhraseAtLex(rest[from..], words[1..]);
        } else {
          NoWordNoRow(rest, words[1..]);
        }
      }
    }
  }

  lemma LexOfWord(s: string)
    requires s != "" && IsWord(s[0])
    ensures Lex(s) == [Word(s[..WordEnd(s, 1)])] + Lex(s[WordEnd(s, 1)..])
  {
  }

  lemma SpacesEnd(s: string)
    ensures var from := SkipSpaces(s, 0); s[from..] == "" || !IsSpace(s[from..][0])
  {
    SkipSpacesEnds(s, 0);
  }

  lemma {:induction false} SkipSpacesEnds(s: string, i: nat)
    requires i <= |s|
    ensures SkipSpaces(s, i) < |s| ==> !IsSpace(s[SkipSpaces(s, i)])
    decreases |s| - i
  {
    if i < |s| && IsSpace(s[i]) {
      SkipSpacesEnds(s, i + 1);
    }
  }

  lemma NoWordNoRow(s: string, words: seq<string>)
    requires AllKeywords(words) && (s == "" || (!IsWord(s[0]) && !IsSpace(s[0])))
    ensures !RowAt(Lex(s), words, 0)
  {
    hide SameWord;
    assert RowAt(Lex(s), words, 0) ==> Is(Lex(s)[0 + 0], words[0]);
  }

  lemma NoWordNoPhrase(s: string, words: seq<string>)
    requires AllKeywords(words) && (s == "" || !IsWord(s[0]))
    ensures !PhraseAt(s, words, 0)
    ensures s == "" || !IsSpace(s[0]) ==> !RowAt(Lex(s), words, 0)
  {
    var w := words[0];
    assert IsKeyword(w);
    assert s != "" ==> UpperChar(s[0 + 0]) != w[0];
    if s == "" || !IsSpace(s[0]) {
      NoWordNoRow(s, words);
    }
  }

  // ---- The theorem ---------------------------------------------------------------------

  lemma RowInTail(first: Lexeme, rest: seq<Lexeme>, words: seq<string>)
    ensures HasRow([first] + rest, words) <==> RowAt([first] + rest, words, 0) || HasRow(rest, words)
  {
    hide RowAt;
    var all := [first] + rest;
    if HasRow(all, words) {
      var i: nat :| RowAt(all, words, i);
      if i > 0 {
        RowShift([first], rest, words, i - 1);
      }
    }
    if HasRow(rest, words) {
      var i: nat :| RowAt(rest, words, i);
      RowShift([first], rest, words, i);
      assert RowAt(all, words, 1 + i);
    }
  }

  /** A pattern matches at the start of a word, or after it. */
  lemma PhraseInTail(front: string, rest: string, words: seq<string>)
    requires AllKeywords(words) && front != ""
    requires
      || ((forall i :: 0 <= i < |front| ==> IsWord(front[i])) && (rest == "" || !IsWord(rest[0])))
      || (|front| == 1 && !IsWord(front[0]))
    ensures HasPhrase(front + rest, words) <==> PhraseAt(front + rest, words, 0) || HasPhrase(rest, words)
  {
    hide PhraseAt, IsWord;
    var s := front + rest;
    assert IsWord(front[0]) && rest != "" ==> !PhraseAt(rest, words, 0) by {
      if rest != "" && !IsWord(rest[0]) {
        NoWordNoPhrase(rest, words);
      }
    }
    forall i: nat | i <= |rest| && PhraseStartsAt(rest, words, i)
      ensures PhraseStartsAt(s, words, |front| + i)
    {
      StartsLater(front, rest, words, i);
    }
    forall p: nat | 0 < p <= |s| && PhraseStartsAt(s, words, p)
      ensures HasPhrase(rest, words)
    {
      NotInside(front, rest, words, p);
      var i: nat := p - |front|;
      StartsLater(front, rest, words, i);
      assert PhraseStartsAt(rest, words, i);
    }
    if PhraseAt(s, words, 0) {
      assert PhraseStartsAt(s, words, 0);
    }
  }

  lemma NotInside(front: string, rest: string, words: seq<string>, p: nat)
    requires words != [] && 0 < p && PhraseStartsAt(front + rest, words, p)
    requires |front| == 1 || forall i :: 0 <= i < |front| ==> IsWord(front[i])
    ensures p >= |front|
  {
    hide PhraseAt;
    if |front| > 1 {
      assert forall i :: 0 <= i < |front| ==> (front + rest)[i] == front[i];
    }
  }

  lemma StartsLater(front: string, rest: string, words: seq<string>, i: nat)
    requires AllKeywords(words) && front != "" && i <= |rest|
    requires IsWord(front[|front| - 1]) ==> rest == "" || !IsWord(rest[0])
    ensures PhraseStartsAt(front + rest, words, |front| + i) <==> PhraseStartsAt(rest, words, i)
  {
    hide PhraseAt;
    if i > 0 || !IsWord(front[|front| - 1]) {
      PhraseStartShift(front, rest, words, i);
    } else {
      NoWordNoPhrase(rest, words);
      assert !WordStarts(front + rest, |front|);
    }
  }

  /** On every text, a pattern matches exactly where its words stand in a row. */
  lemma {:induction false} PhraseIsRow(s: string, words: seq<string>)
    requires AllKeywords(words)
    ensures HasPhrase(s, words) <==> HasRow(Lex(s), words)
    decreases |s|
  {
    hide HasPhrase, HasRow, PhraseAt, RowAt, AllKeywords;
    if s == "" {
      EmptyHasNothing(words);
    } else if IsWord(s[0]) {
      var end := WordEnd(s, 1);
      var t, rest := s[..end], s[end..];
      assert s == t + rest;
      PhraseIsRow(rest, words);
      PhraseInTail(t, rest, words);
      PhraseAtLex(s, words);
      RowInTail(Word(t), Lex(rest), words);
    } else {
      var front, rest := [s[0]], s[1..];
      assert s == front + rest;
      PhraseIsRow(rest, words);
      PhraseInTail(front, rest, words);
      NoWordNoPhrase(s, words);
      if !IsSpace(s[0]) {
        RowInTail(Sep(s[0]), Lex(rest), words);
      }
    }
  }

  lemma EmptyHasNothing(words: seq<string>)
    requires AllKeywords(words)
    ensures !HasPhrase("", words) && !HasRow(Lex(""), words)
  {
    NoWordNoPhrase("", words);
  }

  // ---- Statements outside the transaction -----------------------------------------------

  /** The code of a text, as lexemes. */
  function CodeLexemes(sql: string): seq<Lexeme> {
    Lex(StripSqlComments(sql))
  }

  /**
   * A statement runs outside the migration transaction exactly when it has a
   * mark line, or its code says CONCURRENTLY, or VALIDATE CONSTRAINT.
   */
  lemma RunsOutsideExactly(statement: string)
    ensures RunsOutsideTransaction(statement) <==>
      || HasMarkLine(statement)
      || HasRow(CodeLexemes(statement), ["CONCURRENTLY"])
      || HasRow(CodeLexemes(statement), ["VALIDATE", "CONSTRAINT"])
  {
    hide HasNoTransactionMark, HasMarkLine, HasPhrase, HasRow, StripSqlComments;
    MarkExactly(statement);
    PhraseIsRow(StripSqlComments(statement), ["CONCURRENTLY"]);
    PhraseIsRow(StripSqlComments(statement), ["VALIDATE", "CONSTRAINT"]);
  }
}
