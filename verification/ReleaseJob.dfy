/**
 * Rendering the migrate job: two replacement passes over a template, which
 * agree with replacing both tokens at once.
 */
module ReleaseJob {
  import opened Common
  import opened MigrationText

  const ECR_ACCOUNT := "959038055523"
  const ECR_REGION := ".dkr.ecr.ap-southeast-2"
  const ECR_DOMAIN := ".amazonaws.com"
  const ECR_REGISTRY := ECR_ACCOUNT + ECR_REGION + ECR_DOMAIN
  const APP_IMAGE_REPOSITORY := ECR_REGISTRY + "/blakpath/app"
  const WORKER_IMAGE_REPOSITORY := ECR_REGISTRY + "/blakpath/worker"
  const IMAGE_TOKEN := "__IMAGE__"
  const RELEASE_TOKEN := "__RELEASE_ID__"

  datatype ReleaseImages = ReleaseImages(appImage: string, workerImage: string, releaseId: string)

  predicate IsHex(c: char) {
    '0' <= c <= '9' || 'a' <= c <= 'f'
  }

  /** `assertDigestImage`: the repository, pinned by a sha256 digest. */
  predicate IsDigestImage(image: string, repository: string) {
    var head := repository + "@sha256:";
    && head <= image && |image| == |head| + 64
    && forall i :: |head| <= i < |image| ==> IsHex(image[i])
  }

  predicate IsReleaseId(id: string) {
    7 <= |id| <= 40 && forall i :: 0 <= i < |id| ==> IsHex(id[i])
  }

  /** `String.prototype.replaceAll` with a plain, non-empty pattern. */
  function ReplaceAll(s: string, pat: string, value: string): string
    requires pat != ""
    decreases |s|
  {
    if s == "" then ""
    else if pat <= s then value + ReplaceAll(s[|pat|..], pat, value)
    else [s[0]] + ReplaceAll(s[1..], pat, value)
  }

  /** Both tokens replaced in one pass. */
  function ReplaceBoth(s: string, pat: string, value: string, pat2: string, value2: string): string
    requires pat != "" && pat2 != ""
    decreases |s|
  {
    if s == "" then ""
    else if pat <= s then value + ReplaceBoth(s[|pat|..], pat, value, pat2, value2)
    else if pat2 <= s then value2 + ReplaceBoth(s[|pat2|..], pat, value, pat2, value2)
    else [s[0]] + ReplaceBoth(s[1..], pat, value, pat2, value2)
  }

  datatype RenderError = NotPinned | BadReleaseId | MissingToken | NotRendered | NoImage | OtherImage

  datatype Rendered = Job(text: string) | Refused(error: RenderError)

  /** `renderMigrateJob` */
  ghost function RenderMigrateJob(template: string, release: ReleaseImages): Rendered {
    if !IsDigestImage(release.appImage, APP_IMAGE_REPOSITORY)
       || !IsDigestImage(release.workerImage, WORKER_IMAGE_REPOSITORY) then Refused(NotPinned)
    else if !IsReleaseId(release.releaseId) then Refused(BadReleaseId)
    else if !Contains(template, IMAGE_TOKEN) || !Contains(template, RELEASE_TOKEN) then Refused(MissingToken)
    else
      var rendered := ReplaceAll(
        ReplaceAll(template, IMAGE_TOKEN, release.appImage), RELEASE_TOKEN, release.releaseId);
      if Contains(rendered, IMAGE_TOKEN) || Contains(rendered, RELEASE_TOKEN) then Refused(NotRendered)
      else
        match ImageFrom(rendered, 0)
        case None => Refused(NoImage)
        case Some(image) => if image != release.appImage then Refused(OtherImage) else Job(rendered)
  }

  // ---- The image line ----------------------------------------------------------------

  predicate IsLineEnd(c: char) {
    c in "\n\r\U{2028}\U{2029}"
  }

  function TokenEnd(s: string, from: nat): (end: nat)
    requires from <= |s|
    ensures from <= end <= |s| && forall i :: from <= i < end ==> !IsSpace(s[i])
    ensures end < |s| ==> IsSpace(s[end])
    decreases |s| - from
  {
    if from < |s| && !IsSpace(s[from]) then TokenEnd(s, from + 1) else from
  }

  /** White space from `from` on reaches a line end, or the end of the text. */
  predicate EndsLine(s: string, from: nat)
    requires from <= |s|
    decreases |s| - from
  {
    from == |s| || IsLineEnd(s[from]) || (IsSpace(s[from]) && EndsLine(s, from + 1))
  }

  /** `/^\s*image:\s*(\S+)\s*$/m` at a position, scanned without backtracking */
  function ImageAt(s: string, i: nat): Option<string>
    requires i <= |s|
  {
    var key := SkipSpaces(s, i);
    if !LineStarts(s, i) || !OccursAt(s, "image:", key) then None
    else
      var from := SkipSpaces(s, key + 6);
      var end := TokenEnd(s, from);
      if from < end && EndsLine(s, end) then Some(s[from..end]) else None
  }

  /** `imageFromJob`: the leftmost match */
  function ImageFrom(s: string, i: nat): Option<string>
    requires i <= |s|
    decreases |s| - i
  {
    if ImageAt(s, i).Some? then ImageAt(s, i) else if i == |s| then None else ImageFrom(s, i + 1)
  }

  /** The pattern as it reads: indented `image:`, white space, a word, white space, a line end. */
  ghost predicate IsImageLine(s: string, i: nat, key: nat, from: nat, image: string, stop: nat) {
    && BeginsLine(s, i) && AreSpaces(s, i, key) && OccursAt(s, "image:", key) && AreSpaces(s, key + 6, from)
    && image != "" && OccursAt(s, image, from) && (forall c :: 0 <= c < |image| ==> !IsSpace(image[c]))
    && RunsTo(s, from + |image|, stop)
  }

  ghost predicate HasImageLine(s: string, i: nat, image: string) {
    exists key: nat, from: nat, stop: nat :: IsImageLine(s, i, key, from, image, stop)
  }

  lemma {:induction false} TokenEndsAt(s: string, from: nat, end: nat)
    requires from <= end <= |s| && (forall i :: from <= i < end ==> !IsSpace(s[i])) && (end < |s| ==> IsSpace(s[end]))
    ensures TokenEnd(s, from) == end
    decreases end - from
  {
    if from < end {
      TokenEndsAt(s, from + 1, end);
    }
  }

  ghost predicate RunsTo(s: string, from: nat, stop: nat) {
    AreSpaces(s, from, stop) && (stop == |s| || IsLineBreak(s[stop]))
  }

  lemma {:induction false} EndsLineExactly(s: string, from: nat)
    requires from <= |s|
    ensures EndsLine(s, from) <==> exists stop: nat :: RunsTo(s, from, stop)
    decreases |s| - from
  {
    LineEndIsSpace();
    hide IsSpace, IsLineEnd, IsLineBreak;
    if from == |s| || IsLineEnd(s[from]) {
      assert RunsTo(s, from, from);
    } else {
      EndsLineExactly(s, from + 1);
      if EndsLine(s, from) {
        var stop: nat :| RunsTo(s, from + 1, stop);
        assert RunsTo(s, from, stop);
      }
      forall stop: nat | RunsTo(s, from, stop)
        ensures EndsLine(s, from)
      {
        assert RunsTo(s, from + 1, stop);
      }
    }
  }

  /** The scan finds an image exactly where a line of that shape stands, and then only that one. */
  lemma ImageAtExactly(s: string, i: nat, image: string)
    requires i <= |s|
    ensures ImageAt(s, i) == Some(image) <==> HasImageLine(s, i, image)
  {
    hide ImageAt, IsImageLine;
    if ImageAt(s, i) == Some(image) {
      ImageAtReads(s, i);
    }
    if HasImageLine(s, i, image) {
      var key: nat, from: nat, stop: nat :| IsImageLine(s, i, key, from, image, stop);
      ImageLineIsFound(s, i, key, from, image, stop);
    }
  }

  lemma ImageAtReads(s: string, i: nat)
    requires i <= |s| && ImageAt(s, i).Some?
    ensures HasImageLine(s, i, ImageAt(s, i).value)
  {
    BeginsExactly(s, i);
    hide IsSpace, LineStarts, BeginsLine, RunsTo;
    var key := SkipSpaces(s, i);
    SpacesSkipped(s, i);
    var from := SkipSpaces(s, key + 6);
    SpacesSkipped(s, key + 6);
    EndsLineExactly(s, TokenEnd(s, from));
    var stop: nat :| RunsTo(s, TokenEnd(s, from), stop);
    assert IsImageLine(s, i, key, from, ImageAt(s, i).value, stop);
  }

  /** The key stands where the scan looks for it. */
  lemma KeyIsFound(s: string, i: nat, key: nat)
    requires AreSpaces(s, i, key) && OccursAt(s, "image:", key)
    ensures SkipSpaces(s, i) == key
  {
    assert s[key] == s[key..key + 6][0] == "image:"[0];
    assert !IsSpace('i');
    hide IsSpace;
    SpacesEndAt(s, i, key);
  }

  /** The word ends where the scan stops reading it, and its line ends after it. */
  lemma WordIsFound(s: string, from: nat, image: string, stop: nat)
    requires image != "" && OccursAt(s, image, from) && (forall c :: 0 <= c < |image| ==> !IsSpace(image[c]))
    requires RunsTo(s, from + |image|, stop)
    ensures !IsSpace(s[from]) && s[from..from + |image|] == image
    ensures TokenEnd(s, from) == from + |image| && EndsLine(s, from + |image|)
  {
    LineEndIsSpace();
    hide IsSpace, IsLineEnd;
    var end := from + |image|;
    assert forall c :: from <= c < end ==> s[c] == s[from..end][c - from];
    TokenEndsAt(s, from, end);
    EndsLineExactly(s, end);
  }

  lemma ImageLineIsFound(s: string, i: nat, key: nat, from: nat, image: string, stop: nat)
    requires i <= |s| && IsImageLine(s, i, key, from, image, stop)
    ensures ImageAt(s, i) == Some(image)
  {
    BeginsExactly(s, i);
    hide IsSpace, LineStarts, BeginsLine, RunsTo;
    KeyIsFound(s, i, key);
    WordIsFound(s, from, image, stop);
    SpacesEndAt(s, key + 6, from);
  }

  lemma LineEndIsSpace()
    ensures forall c :: IsLineEnd(c) ==> IsSpace(c)
    ensures forall c :: IsLineEnd(c) <==> IsLineBreak(c)
  {
  }

  /** `imageFromJob` reads the first line of that shape. */
  lemma {:induction false} ImageFromExactly(s: string, i: nat, image: string)
    requires i <= |s|
    ensures ImageFrom(s, i) == Some(image) <==>
      exists at: nat :: i <= at <= |s| && HasImageLine(s, at, image) &&
        forall before: nat, other :: i <= before < at ==> !HasImageLine(s, before, other)
    decreases |s| - i
  {
    hide HasImageLine, ImageAt;
    forall at: nat, other | at <= |s|
      ensures ImageAt(s, at) == Some(other) <==> HasImageLine(s, at, other)
    {
      ImageAtExactly(s, at, other);
    }
    if i < |s| {
      ImageFromExactly(s, i + 1, image);
    }
  }

  // ---- Values that cannot take part in a token ------------------------------------

  /** No character of the value occurs in the pattern. */
  predicate IsAlien(value: string, pat: string) {
    forall i, k :: 0 <= i < |value| && 0 <= k < |pat| ==> value[i] != pat[k]
  }

  lemma {:induction false} AlienIsSkipped(value: string, rest: string, pat: string, new_: string)
    requires pat != "" && IsAlien(value, pat)
    ensures ReplaceAll(value + rest, pat, new_) == value + ReplaceAll(rest, pat, new_)
  {
    if value == "" {
      assert value + rest == rest;
    } else {
      var s := value + rest;
      assert s[0] == value[0] != pat[0];
      assert s[1..] == value[1..] + rest;
      AlienIsSkipped(value[1..], rest, pat, new_);
    }
  }

  /** What a later pattern matches after a replacement, it already matched before it. */
  lemma {:induction false} MatchComesFromSource(s: string, pat: string, value: string, word: string)
    requires pat != "" && value != "" && IsAlien(value, word)
    requires word <= ReplaceAll(s, pat, value)
    ensures word <= s
  {
    if word != "" && s != "" {
      assert value[0] != word[0];
      if !(pat <= s) {
        assert word[1..] <= ReplaceAll(s[1..], pat, value);
        MatchComesFromSource(s[1..], pat, value, word[1..]);
        assert word == [word[0]] + word[1..] && s == [s[0]] + s[1..];
      }
    }
  }

  lemma OccursAtStart(s: string, pat: string)
    ensures OccursAt(s, pat, 0) <==> pat <= s
  {
  }

  /** Where the pattern does not start, the text is copied. */
  lemma {:induction false} CopiedThrough(s: string, n: nat, pat: string, value: string)
    requires pat != "" && n <= |s| && forall i :: 0 <= i < n ==> !OccursAt(s, pat, i)
    ensures ReplaceAll(s, pat, value) == s[..n] + ReplaceAll(s[n..], pat, value)
  {
    hide OccursAt;
    if n == 0 {
      assert s[0..] == s;
    } else {
      OccursAtStart(s, pat);
      forall i | 0 <= i < n - 1
        ensures !OccursAt(s[1..], pat, i)
      {
        OccursInSuffix(s, pat, 1, i);
        assert !OccursAt(s, pat, i + 1);
      }
      CopiedThrough(s[1..], n - 1, pat, value);
      assert s[1..][n - 1..] == s[n..] && s[..n] == [s[0]] + s[1..][..n - 1];
    }
  }

  /** No occurrence of one token shares a character with an occurrence of the other. */
  ghost predicate NeverOverlap(s: string, pat: string, pat2: string) {
    forall i, j :: OccursAt(s, pat, i) && OccursAt(s, pat2, j) ==> i + |pat| <= j || j + |pat2| <= i
  }

  lemma SuffixNeverOverlaps(s: string, pat: string, pat2: string, from: nat)
    requires NeverOverlap(s, pat, pat2) && from <= |s|
    ensures NeverOverlap(s[from..], pat, pat2)
  {
    forall i, j | OccursAt(s[from..], pat, i) && OccursAt(s[from..], pat2, j)
      ensures i + |pat| <= j || j + |pat2| <= i
    {
      OccursInSuffix(s, pat, from, i);
      OccursInSuffix(s, pat2, from, j);
    }
  }

  /**
   * In a text where the two patterns never overlap, replacing one and then the
   * other is the same as replacing both at once, when no value shares a
   * character with the pattern that is replaced after it.
   */
  lemma {:induction false} TwoPassesAreOne(s: string, pat: string, value: string, pat2: string, value2: string)
    requires pat != "" && pat2 != "" && value != "" && IsAlien(value, pat2) && NeverOverlap(s, pat, pat2)
    ensures ReplaceAll(ReplaceAll(s, pat, value), pat2, value2) == ReplaceBoth(s, pat, value, pat2, value2)
    decreases |s|
  {
    if s == "" {
    } else if pat <= s {
      SuffixNeverOverlaps(s, pat, pat2, |pat|);
      TwoPassesAreOne(s[|pat|..], pat, value, pat2, value2);
      AlienIsSkipped(value, ReplaceAll(s[|pat|..], pat, value), pat2, value2);
    } else if pat2 <= s {
      SuffixNeverOverlaps(s, pat, pat2, |pat2|);
      TwoPassesAreOne(s[|pat2|..], pat, value, pat2, value2);
      NotInside(s, pat, pat2);
      CopiedThrough(s, |pat2|, pat, value);
      var rest := ReplaceAll(s[|pat2|..], pat, value);
      assert (pat2 + rest)[|pat2|..] == rest && s[..|pat2|] == pat2;
    } else {
      SuffixNeverOverlaps(s, pat, pat2, 1);
      TwoPassesAreOne(s[1..], pat, value, pat2, value2);
      var once := ReplaceAll(s, pat, value);
      if pat2 <= once {
        MatchComesFromSource(s, pat, value, pat2);
        assert false;
      }
      assert once[1..] == ReplaceAll(s[1..], pat, value);
    }
  }

  lemma NotInside(s: string, pat: string, pat2: string)
    requires NeverOverlap(s, pat, pat2) && pat != "" && pat2 != "" && pat2 <= s && !(pat <= s)
    ensures forall i :: 0 <= i < |pat2| ==> !OccursAt(s, pat, i)
  {
    OccursAtStart(s, pat);
    OccursAtStart(s, pat2);
  }

  // ---- Rendering --------------------------------------------------------------------

  predicate IsTokenLetter(c: char) {
    'A' <= c <= 'Z' || c == '_'
  }

  lemma TokensAreLetters()
    ensures forall c :: c in IMAGE_TOKEN || c in RELEASE_TOKEN ==> IsTokenLetter(c)
  {
  }

  predicate HasNoTokenLetter(s: string) {
    forall i :: 0 <= i < |s| ==> !IsTokenLetter(s[i])
  }

  lemma PartsHaveNoTokenLetter()
    ensures HasNoTokenLetter(ECR_ACCOUNT) && HasNoTokenLetter(ECR_REGION) && HasNoTokenLetter(ECR_DOMAIN)
    ensures HasNoTokenLetter("/blakpath/app") && HasNoTokenLetter("@sha256:")
  {
  }

  lemma RepositoryHasNoTokenLetter()
    ensures HasNoTokenLetter(APP_IMAGE_REPOSITORY) && HasNoTokenLetter("@sha256:")
  {
    PartsHaveNoTokenLetter();
    hide ECR_ACCOUNT, ECR_REGION, ECR_DOMAIN;
  }

  /** A pinned image and a release id hold no character of a token. */
  lemma ReleaseHasNoTokenLetter(release: ReleaseImages)
    requires IsDigestImage(release.appImage, APP_IMAGE_REPOSITORY) && IsReleaseId(release.releaseId)
    ensures HasNoTokenLetter(release.appImage) && HasNoTokenLetter(release.releaseId)
    ensures release.appImage != "" && release.releaseId != ""
  {
    RepositoryHasNoTokenLetter();
    hide APP_IMAGE_REPOSITORY;
    var head := APP_IMAGE_REPOSITORY + "@sha256:";
    assert forall i :: 0 <= i < |head| ==> release.appImage[i] == head[i];
  }

  lemma RenderedIsBoth(template: string, release: ReleaseImages)
    requires IsDigestImage(release.appImage, APP_IMAGE_REPOSITORY) && IsReleaseId(release.releaseId)
    requires NeverOverlap(template, IMAGE_TOKEN, RELEASE_TOKEN)
    ensures ReplaceAll(ReplaceAll(template, IMAGE_TOKEN, release.appImage), RELEASE_TOKEN, release.releaseId)
      == ReplaceBoth(template, IMAGE_TOKEN, release.appImage, RELEASE_TOKEN, release.releaseId)
  {
    ReleaseHasNoTokenLetter(release);
    TokensAreLetters();
    hide IsDigestImage, IsReleaseId, ReplaceAll, ReplaceBoth, NeverOverlap, APP_IMAGE_REPOSITORY;
    TwoPassesAreOne(template, IMAGE_TOKEN, release.appImage, RELEASE_TOKEN, release.releaseId);
  }

  /** Nothing that was replaced is left, when no value can take part in an occurrence. */
  lemma {:induction false} NoneLeft(s: string, pat: string, value: string)
    requires pat != "" && value != "" && IsAlien(value, pat)
    ensures !Contains(ReplaceAll(s, pat, value), pat)
    decreases |s|
  {
    if s == "" {
    } else if pat <= s {
      NoneLeft(s[|pat|..], pat, value);
      NoneBehind(value, ReplaceAll(s[|pat|..], pat, value), pat);
    } else {
      NoneLeft(s[1..], pat, value);
      NoneAhead(s, pat, value, pat);
    }
  }

  /** What a text holds after a replacement, it held before it. */
  lemma {:induction false} NoneAdded(s: string, pat: string, value: string, word: string)
    requires pat != "" && word != "" && value != "" && IsAlien(value, word) && !Contains(s, word)
    ensures !Contains(ReplaceAll(s, pat, value), word)
    decreases |s|
  {
    if s == "" {
    } else {
      var n := if pat <= s then |pat| else 1;
      SuffixHoldsNone(s, word, n);
      NoneAdded(s[n..], pat, value, word);
      if pat <= s {
        NoneBehind(value, ReplaceAll(s[n..], pat, value), word);
      } else {
        OccursAtStart(s, word);
        assert !OccursAt(s, word, 0);
        NoneAhead(s, pat, value, word);
      }
    }
  }

  lemma SuffixHoldsNone(s: string, word: string, n: nat)
    requires !Contains(s, word) && n <= |s|
    ensures !Contains(s[n..], word)
  {
    forall i
      ensures !OccursAt(s[n..], word, i)
    {
      OccursInSuffix(s, word, n, i);
      assert !OccursAt(s, word, n + i);
    }
  }

  /** A word that shares no character with the value is behind it, or nowhere. */
  lemma NoneBehind(value: string, rest: string, word: string)
    requires word != "" && IsAlien(value, word) && !Contains(rest, word)
    ensures !Contains(value + rest, word)
  {
    var all := value + rest;
    assert all[|value|..] == rest;
    forall i
      ensures !OccursAt(all, word, i)
    {
      assert OccursAt(all, word, i) ==> all[i] == all[i..i + |word|][0] == word[0];
      OccursInSuffix(all, word, |value|, i - |value|);
    }
  }

  /** Where the text does not start with the word, neither does what the replacement makes of it. */
  lemma NoneAhead(s: string, pat: string, value: string, word: string)
    requires pat != "" && word != "" && value != "" && IsAlien(value, word)
    requires s != "" && !(pat <= s) && !(word <= s) && !Contains(ReplaceAll(s[1..], pat, value), word)
    ensures !Contains(ReplaceAll(s, pat, value), word)
  {
    var all := ReplaceAll(s, pat, value);
    assert all[1..] == ReplaceAll(s[1..], pat, value);
    forall i
      ensures !OccursAt(all, word, i)
    {
      OccursAtStart(all, word);
      if i == 0 && word <= all {
        MatchComesFromSource(s, pat, value, word);
      }
      OccursInSuffix(all, word, 1, i - 1);
    }
  }

  /** Nothing is left of either token, whatever the template. */
  lemma AlwaysRendered(template: string, release: ReleaseImages)
    requires IsDigestImage(release.appImage, APP_IMAGE_REPOSITORY) && IsReleaseId(release.releaseId)
    ensures
      var rendered := ReplaceAll(
        ReplaceAll(template, IMAGE_TOKEN, release.appImage), RELEASE_TOKEN, release.releaseId);
      !Contains(rendered, IMAGE_TOKEN) && !Contains(rendered, RELEASE_TOKEN)
  {
    ReleaseHasNoTokenLetter(release);
    TokensAreLetters();
    hide IsDigestImage, IsReleaseId, ReplaceAll, APP_IMAGE_REPOSITORY;
    var once := ReplaceAll(template, IMAGE_TOKEN, release.appImage);
    NoneLeft(template, IMAGE_TOKEN, release.appImage);
    NoneLeft(once, RELEASE_TOKEN, release.releaseId);
    NoneAdded(once, RELEASE_TOKEN, release.releaseId, IMAGE_TOKEN);
  }

  /** An image of the repository, pinned by 64 hexadecimal digits. */
  ghost predicate IsPinned(image: string, repository: string) {
    exists digest: string ::
      && image == repository + "@sha256:" + digest && |digest| == 64
      && forall i :: 0 <= i < 64 ==> '0' <= digest[i] <= '9' || 'a' <= digest[i] <= 'f'
  }

  /** 7 to 40 hexadecimal digits. */
  predicate IsShortSha(id: string) {
    7 <= |id| <= 40 && forall i :: 0 <= i < |id| ==> '0' <= id[i] <= '9' || 'a' <= id[i] <= 'f'
  }

  lemma PinnedExactly(image: string, repository: string)
    ensures IsDigestImage(image, repository) <==> IsPinned(image, repository)
  {
    var head := repository + "@sha256:";
    if IsDigestImage(image, repository) {
      var digest := image[|head|..];
      assert image == head + digest;
      assert forall i :: 0 <= i < 64 ==> digest[i] == image[|head| + i];
    }
    if IsPinned(image, repository) {
      var digest: string :|
        && image == repository + "@sha256:" + digest && |digest| == 64
        && forall i :: 0 <= i < 64 ==> '0' <= digest[i] <= '9' || 'a' <= digest[i] <= 'f';
      assert forall i :: |head| <= i < |image| ==> image[i] == digest[i - |head|];
    }
  }

  /** The first image line of a text names this image. */
  ghost predicate FirstImageIs(text: string, image: string) {
    exists at: nat :: at <= |text| && HasImageLine(text, at, image) &&
      forall before: nat, other :: before < at ==> !HasImageLine(text, before, other)
  }

  /**
   * What `renderMigrateJob` answers, case by case: it refuses an image that is
   * not pinned, then an id that is no short hash, then a template without one
   * of the tokens, then one whose first image line, both tokens replaced, is
   * not the release's image. Its check that no token is left never fires.
   */
  lemma RendersExactly(template: string, release: ReleaseImages)
    ensures
      var r := RenderMigrateJob(template, release);
      var text := ReplaceAll(ReplaceAll(template, "__IMAGE__", release.appImage), "__RELEASE_ID__", release.releaseId);
      var registry := "959038055523" + ".dkr.ecr.ap-southeast-2" + ".amazonaws.com";
      if !IsPinned(release.appImage, registry + "/blakpath/app")
         || !IsPinned(release.workerImage, registry + "/blakpath/worker") then r == Refused(NotPinned)
      else if !IsShortSha(release.releaseId) then r == Refused(BadReleaseId)
      else if !Contains(template, "__IMAGE__") || !Contains(template, "__RELEASE_ID__") then r == Refused(MissingToken)
      else
        && (r == Job(text) <==> FirstImageIs(text, release.appImage))
        && (r == Refused(NoImage) <==> forall at: nat, other :: at <= |text| ==> !HasImageLine(text, at, other))
        && r in {Job(text), Refused(NoImage), Refused(OtherImage)}
  {
    PinnedExactly(release.appImage, APP_IMAGE_REPOSITORY);
    PinnedExactly(release.workerImage, WORKER_IMAGE_REPOSITORY);
    hide IsDigestImage, IsPinned, ReplaceAll, HasImageLine, ImageFrom, Contains;
    if IsDigestImage(release.appImage, APP_IMAGE_REPOSITORY) && IsReleaseId(release.releaseId) {
      AlwaysRendered(template, release);
      var text := ReplaceAll(ReplaceAll(template, IMAGE_TOKEN, release.appImage), RELEASE_TOKEN, release.releaseId);
      ImageFromExactly(text, 0, release.appImage);
      NoImageExactly(text, 0);
    }
  }

  /** The scan finds nothing exactly when no line has the shape. */
  lemma {:induction false} NoImageExactly(s: string, i: nat)
    requires i <= |s|
    ensures ImageFrom(s, i).None? <==> forall at: nat, other :: i <= at <= |s| ==> !HasImageLine(s, at, other)
    decreases |s| - i
  {
    hide HasImageLine, ImageAt;
    forall other
      ensures ImageAt(s, i) == Some(other) <==> HasImageLine(s, i, other)
    {
      ImageAtExactly(s, i, other);
    }
    if ImageAt(s, i).Some? {
      assert HasImageLine(s, i, ImageAt(s, i).value);
    } else if i < |s| {
      NoImageExactly(s, i + 1);
    }
  }

  /**
   * A rendered job is the template with both tokens replaced at once, when they
   * never overlap in it, and holds neither token; the first image line of it
   * names the release's image.
   */
  lemma RenderIsSimultaneous(template: string, release: ReleaseImages)
    requires RenderMigrateJob(template, release).Job?
    ensures
      var text := RenderMigrateJob(template, release).text;
      && !Contains(text, IMAGE_TOKEN) && !Contains(text, RELEASE_TOKEN)
      && (exists at: nat :: at <= |text| && HasImageLine(text, at, release.appImage) &&
            forall before: nat, other :: before < at ==> !HasImageLine(text, before, other))
      && (NeverOverlap(template, IMAGE_TOKEN, RELEASE_TOKEN) ==>
            text == ReplaceBoth(template, IMAGE_TOKEN, release.appImage, RELEASE_TOKEN, release.releaseId))
  {
    hide IsDigestImage, IsReleaseId, ReplaceAll, ReplaceBoth, NeverOverlap, APP_IMAGE_REPOSITORY,
         WORKER_IMAGE_REPOSITORY, HasImageLine, ImageFrom;
    ImageFromExactly(RenderMigrateJob(template, release).text, 0, release.appImage);
    if NeverOverlap(template, IMAGE_TOKEN, RELEASE_TOKEN) {
      RenderedIsBoth(template, release);
    }
  }
}
