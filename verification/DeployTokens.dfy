/**
 * Filling the tokens of a deploy overlay: a leftmost, lazy scan for
 * `__NAME__`, one replacement per token, and a refusal of whatever is left.
 */
module DeployTokens {
  import opened Common
  import opened MigrationText

  datatype Result<+T> = Ok(value: T) | Err(message: string)

  const DEPLOY_VALUE_NAMES := [
    "AWS_ACCOUNT_ID", "S3_BUCKET_EVIDENCE", "S3_BUCKET_QUARANTINE", "S3_BUCKET_AUDIT_ANCHORS", "S3_KMS_KEY_ID"]

  datatype Environment = Production | Staging

  function Prefix(environment: Environment): string {
    if environment == Production then "PRODUCTION_" else "STAGING_"
  }

  // ---- The scanner --------------------------------------------------------------

  /** `[A-Z0-9_]` */
  predicate IsTokenChar(c: char) {
    'A' <= c <= 'Z' || '0' <= c <= '9' || c == '_'
  }

  predicate IsToken(inner: string) {
    inner != "" && forall i :: 0 <= i < |inner| ==> IsTokenChar(inner[i])
  }

  predicate Underscores(s: string, i: nat) {
    i + 2 <= |s| && s[i] == '_' && s[i + 1] == '_'
  }

  /** The first `__` at or after `k` that only token characters separate from `k`. */
  function CloseAt(s: string, k: nat): (r: Option<nat>)
    ensures r.Some? ==> k <= r.value && Underscores(s, r.value)
    ensures r.Some? ==> forall i :: k <= i < r.value ==> IsTokenChar(s[i])
    decreases |s| - k
  {
    if k + 2 > |s| then None
    else if Underscores(s, k) then Some(k)
    else if IsTokenChar(s[k]) then CloseAt(s, k + 1)
    else None
  }

  /** Where the closing `__` of a token that starts at `i` is; the name is the shortest possible. */
  function TokenEnd(s: string, i: nat): (r: Option<nat>)
    ensures r.Some? ==> i + 3 <= r.value && Underscores(s, i) && Underscores(s, r.value)
    ensures r.Some? ==> IsToken(s[i + 2..r.value])
  {
    if Underscores(s, i) && i + 2 < |s| && IsTokenChar(s[i + 2]) then CloseAt(s, i + 3) else None
  }

  datatype Piece = Text(c: char) | Token(inner: string)

  /** What the scan makes of `s` from position `i` on. */
  function Pieces(s: string, i: nat): seq<Piece>
    decreases |s| - i
  {
    if |s| <= i then []
    else
      match TokenEnd(s, i)
      case None => [Text(s[i])] + Pieces(s, i + 1)
      case Some(k) => [Token(s[i + 2..k])] + Pieces(s, k + 2)
  }

  function Raw(piece: Piece): string {
    match piece
    case Text(c) => [c]
    case Token(inner) => "__" + inner + "__"
  }

  function RawAll(pieces: seq<Piece>): string {
    if pieces == [] then "" else Raw(pieces[0]) + RawAll(pieces[1..])
  }

  lemma RawAllCons(piece: Piece, rest: seq<Piece>)
    ensures RawAll([piece] + rest) == Raw(piece) + RawAll(rest)
  {
    hide Raw;
    assert ([piece] + rest)[1..] == rest;
  }

  lemma TextCovers(s: string, i: nat)
    requires i < |s| && TokenEnd(s, i).None? && RawAll(Pieces(s, i + 1)) == s[i + 1..]
    ensures RawAll(Pieces(s, i)) == s[i..]
  {
    hide TokenEnd, RawAll;
    RawAllCons(Text(s[i]), Pieces(s, i + 1));
    assert s[i..] == [s[i]] + s[i + 1..];
  }

  lemma TokenCovers(s: string, i: nat, k: nat)
    requires i < |s| && TokenEnd(s, i) == Some(k) && RawAll(Pieces(s, k + 2)) == s[k + 2..]
    ensures RawAll(Pieces(s, i)) == s[i..]
  {
    hide TokenEnd, RawAll, Raw, IsToken;
    RawAllCons(Token(s[i + 2..k]), Pieces(s, k + 2));
    RawIsItself(s, i, k);
    assert s[i..] == s[i..k + 2] + s[k + 2..];
  }

  /** The pieces are the whole source, in order. */
  lemma {:induction false} PiecesCover(s: string, i: nat)
    requires i <= |s|
    ensures RawAll(Pieces(s, i)) == s[i..]
    ensures forall piece :: piece in Pieces(s, i) && piece.Token? ==> IsToken(piece.inner)
    decreases |s| - i
  {
    hide IsToken, IsTokenChar, RawAll, TokenEnd;
    if i == |s| {
      NothingLeft(s);
    } else {
      match TokenEnd(s, i)
      case None =>
        PiecesCover(s, i + 1);
        TextCovers(s, i);
      case Some(k) =>
        PiecesCover(s, k + 2);
        TokenCovers(s, i, k);
    }
  }

  lemma NothingLeft(s: string)
    ensures RawAll(Pieces(s, |s|)) == s[|s|..]
  {
  }

  lemma Cut(s: string, a: nat, b: nat, c: nat, d: nat)
    requires a <= b <= c <= d <= |s|
    ensures s[a..d] == s[a..b] + s[b..c] + s[c..d]
  {
  }

  lemma RawIsItself(s: string, i: nat, k: nat)
    requires i + 3 <= k && Underscores(s, i) && Underscores(s, k)
    ensures Raw(Token(s[i + 2..k])) == s[i..k + 2]
  {
    assert s[i..i + 2] == "__" && s[k..k + 2] == "__";
    Cut(s, i, i + 2, k, k + 2);
  }

  /** The text has a token somewhere, cut in any way. */
  ghost predicate HasToken(s: string) {
    exists i: nat, k: nat :: TokenBetween(s, i, k)
  }

  predicate TokenBetween(s: string, i: nat, k: nat) {
    i + 3 <= k && Underscores(s, i) && Underscores(s, k) && IsToken(s[i + 2..k])
  }

  lemma {:induction false} CloseFinds(s: string, j: nat, k: nat)
    requires j <= k && Underscores(s, k) && forall i :: j <= i < k ==> IsTokenChar(s[i])
    ensures CloseAt(s, j).Some?
    decreases k - j
  {
    if !Underscores(s, j) {
      CloseFinds(s, j + 1, k);
    }
  }

  /** The lazy scanner overlooks no token: it finds one exactly when the text has one. */
  lemma ScannerFindsTokens(s: string)
    ensures (exists i: nat :: TokenEnd(s, i).Some?) <==> HasToken(s)
  {
    if HasToken(s) {
      var i: nat, k: nat :| TokenBetween(s, i, k);
      var inner := s[i + 2..k];
      assert forall j :: i + 2 <= j < k ==> s[j] == inner[j - (i + 2)];
      CloseFinds(s, i + 3, k);
      assert TokenEnd(s, i).Some?;
    }
    if i: nat :| TokenEnd(s, i).Some? {
      assert TokenBetween(s, i, TokenEnd(s, i).value);
    }
  }

  // ---- The values -----------------------------------------------------------------

  predicate IsSafeHead(c: char) {
    'A' <= c <= 'Z' || 'a' <= c <= 'z' || '0' <= c <= '9'
  }

  predicate IsSafeValue(v: string) {
    && v != "" && IsSafeHead(v[0])
    && forall i :: 1 <= i < |v| ==>
         IsSafeHead(v[i]) || v[i] == ':' || v[i] == '/' || v[i] == '.' || v[i] == '_' || v[i] == '-'
  }

  predicate IsAccountId(v: string) {
    |v| == 12 && forall i :: 0 <= i < 12 ==> '0' <= v[i] <= '9'
  }

  /** The value a token names in this environment, or none. */
  function NameOf(inner: string, environment: Environment): string {
    if inner == "AWS_ACCOUNT_ID" then inner
    else if Prefix(environment) <= inner then inner[|Prefix(environment)|..]
    else ""
  }

  predicate BelongsHere(inner: string, environment: Environment) {
    NameOf(inner, environment) in DEPLOY_VALUE_NAMES
  }

  /** The replacement callback. */
  function Fill(piece: Piece, environment: Environment, values: map<string, string>): Result<string> {
    match piece
    case Text(c) => Ok([c])
    case Token(inner) =>
      var name := NameOf(inner, environment);
      if !BelongsHere(inner, environment) then Ok(Raw(piece))
      else if name !in values || values[name] == "" then Err("value is required")
      else if !IsSafeValue(values[name]) then Err("characters a manifest value cannot hold")
      else if name == "AWS_ACCOUNT_ID" && !IsAccountId(values[name]) then Err("must be a 12-digit account id")
      else Ok(values[name])
  }

  function FillAll(pieces: seq<Piece>, environment: Environment, values: map<string, string>): Result<string> {
    if pieces == [] then Ok("")
    else
      match Fill(pieces[0], environment, values)
      case Err(e) => Err(e)
      case Ok(head) =>
        match FillAll(pieces[1..], environment, values)
        case Err(e) => Err(e)
        case Ok(tail) => Ok(head + tail)
  }

  /** `substituteDeployTokens` */
  ghost function Substitute(source: string, environment: Environment, values: map<string, string>): Result<string> {
    match FillAll(Pieces(source, 0), environment, values)
    case Err(e) => Err(e)
    case Ok(filled) => if HasToken(filled) then Err("unresolved deploy token") else Ok(filled)
  }

  // ---- What a success means -------------------------------------------------------

  /** The output, piece for piece: text as it was, each token its value. */
  function Filled(pieces: seq<Piece>, environment: Environment, values: map<string, string>): string
    requires AllGood(pieces, environment, values)
  {
    if pieces == [] then ""
    else
      (if pieces[0].Text? then [pieces[0].c] else values[NameOf(pieces[0].inner, environment)]) +
      Filled(pieces[1..], environment, values)
  }

  /** The names of the values. */
  predicate IsValueName(name: string) {
    name in {"AWS_ACCOUNT_ID", "S3_BUCKET_EVIDENCE", "S3_BUCKET_QUARANTINE", "S3_BUCKET_AUDIT_ANCHORS",
             "S3_KMS_KEY_ID"}
  }

  /** The token of this value in this environment: its name behind the environment's, or the account id's alone. */
  predicate Spells(inner: string, environment: Environment, name: string) {
    && IsValueName(name)
    && (inner == (match environment case Production => "PRODUCTION_" case Staging => "STAGING_") + name
        || inner == name == "AWS_ACCOUNT_ID")
  }

  /** A value a manifest can hold; an account id has twelve digits. */
  predicate IsGoodValue(name: string, v: string) {
    && v != "" && ('A' <= v[0] <= 'Z' || 'a' <= v[0] <= 'z' || '0' <= v[0] <= '9')
    && (forall i :: 0 <= i < |v| ==>
          'A' <= v[i] <= 'Z' || 'a' <= v[i] <= 'z' || '0' <= v[i] <= '9' || v[i] in {':', '/', '.', '_', '-'})
    && (name == "AWS_ACCOUNT_ID" ==> |v| == 12 && forall i :: 0 <= i < 12 ==> '0' <= v[i] <= '9')
  }

  lemma NameExactly(inner: string, environment: Environment, name: string)
    ensures BelongsHere(inner, environment) && NameOf(inner, environment) == name <==> Spells(inner, environment, name)
  {
    if BelongsHere(inner, environment) {
      assert Prefix(environment) <= inner ==> inner == Prefix(environment) + inner[|Prefix(environment)|..];
    }
    if Spells(inner, environment, name) && inner != "AWS_ACCOUNT_ID" {
      assert inner[|Prefix(environment)|..] == name;
    }
  }

  lemma GoodExactly(name: string, v: string)
    ensures IsGoodValue(name, v) <==> IsSafeValue(v) && (name == "AWS_ACCOUNT_ID" ==> IsAccountId(v))
  {
  }

  predicate TokenIsGood(inner: string, environment: Environment, values: map<string, string>) {
    exists name :: name in values && Spells(inner, environment, name) && IsGoodValue(name, values[name])
  }

  lemma TokenExactly(inner: string, environment: Environment, values: map<string, string>)
    ensures
      var name := NameOf(inner, environment);
      TokenIsGood(inner, environment, values) <==>
        BelongsHere(inner, environment) && name in values && IsGoodValue(name, values[name])
  {
    hide BelongsHere, NameOf, Spells, IsGoodValue;
    var name := NameOf(inner, environment);
    NameExactly(inner, environment, name);
    forall other | Spells(inner, environment, other)
      ensures other == name
    {
      NameExactly(inner, environment, other);
    }
  }

  predicate AllGood(pieces: seq<Piece>, environment: Environment, values: map<string, string>) {
    forall piece :: piece in pieces && piece.Token? ==> TokenIsGood(piece.inner, environment, values)
  }

  lemma TokenExtends(a: string, s: string, b: string)
    requires HasToken(s)
    ensures HasToken(a + s + b)
  {
    var i: nat, k: nat :| TokenBetween(s, i, k);
    var all := a + s + b;
    assert all[|a| + i + 2..|a| + k] == s[i + 2..k];
    assert TokenBetween(all, |a| + i, |a| + k);
  }

  /** A token the callback leaves in place is still a token of the output. */
  lemma RawIsToken(inner: string)
    requires IsToken(inner)
    ensures HasToken("__" + inner + "__")
  {
    var s := "__" + inner + "__";
    assert s[2..|inner| + 2] == inner;
    assert TokenBetween(s, 0, |inner| + 2);
  }

  lemma FillMeans(piece: Piece, environment: Environment, values: map<string, string>)
    ensures
      var r := Fill(piece, environment, values);
      match piece
      case Text(c) => r == Ok([c])
      case Token(inner) =>
        if TokenIsGood(inner, environment, values)
        then NameOf(inner, environment) in values && r == Ok(values[NameOf(inner, environment)])
        else r.Err? || r == Ok(Raw(piece))
  {
    hide IsToken, NameOf, IsAccountId, IsSafeValue, BelongsHere, IsGoodValue, TokenIsGood, Raw;
    if piece.Token? {
      var name := NameOf(piece.inner, environment);
      TokenExactly(piece.inner, environment, values);
      if name in values {
        GoodExactly(name, values[name]);
        SafeIsNotEmpty(values[name]);
      }
    }
  }

  lemma SafeIsNotEmpty(v: string)
    ensures IsSafeValue(v) ==> v != ""
  {
  }

  lemma {:induction false} FillAllMeans(pieces: seq<Piece>, environment: Environment, values: map<string, string>)
    requires forall piece :: piece in pieces && piece.Token? ==> IsToken(piece.inner)
    ensures
      var r := FillAll(pieces, environment, values);
      if AllGood(pieces, environment, values) then r == Ok(Filled(pieces, environment, values))
      else r.Err? || HasToken(r.value)
  {
    hide HasToken, IsToken, NameOf, IsAccountId, IsSafeValue, BelongsHere, IsGoodValue, TokenIsGood;
    if pieces != [] {
      var head, tail := pieces[0], pieces[1..];
      assert pieces == [head] + tail;
      FillAllMeans(tail, environment, values);
      FillMeans(head, environment, values);
      hide Fill;
      var first := Fill(head, environment, values);
      var rest := FillAll(tail, environment, values);
      if first.Ok? && rest.Ok? {
        if head.Token? && !TokenIsGood(head.inner, environment, values) {
          assert "" + Raw(head) + rest.value == Raw(head) + rest.value;
          RawIsToken(head.inner);
          TokenExtends("", Raw(head), rest.value);
        } else if !AllGood(tail, environment, values) {
          assert first.value + rest.value + "" == first.value + rest.value;
          TokenExtends(first.value, rest.value, "");
        }
      }
    }
  }

  /**
   * `substituteDeployTokens` succeeds exactly when every token the scan finds
   * belongs to this environment and has a good value, and the filled text holds
   * no token, not even across the edges of a replacement. The output is then
   * the source with each token replaced by its value: the text between tokens
   * is unchanged and in order.
   */
  lemma SucceedsExactly(source: string, environment: Environment, values: map<string, string>)
    ensures
      var pieces := Pieces(source, 0);
      var r := Substitute(source, environment, values);
      && RawAll(pieces) == source
      && (r.Ok? <==> AllGood(pieces, environment, values) && !HasToken(Filled(pieces, environment, values)))
      && (r.Ok? ==> r.value == Filled(pieces, environment, values) && !HasToken(r.value))
  {
    hide HasToken, Pieces, RawAll, FillAll, IsToken, BelongsHere, IsSafeValue, IsAccountId;
    PiecesCover(source, 0);
    assert source[0..] == source;
    FillAllMeans(Pieces(source, 0), environment, values);
  }

  /** Why the callback refuses a token of this environment, and with what words. */
  predicate IsRefusedFor(inner: string, environment: Environment, values: map<string, string>, message: string) {
    var name := NameOf(inner, environment);
    && Spells(inner, environment, name)
    && if name !in values || values[name] == "" then message == "value is required"
       else if !IsGoodValue("", values[name]) then message == "characters a manifest value cannot hold"
       else !IsGoodValue(name, values[name]) && message == "must be a 12-digit account id"
  }

  predicate IsFillable(inner: string, environment: Environment, values: map<string, string>) {
    Spells(inner, environment, NameOf(inner, environment)) ==> TokenIsGood(inner, environment, values)
  }

  lemma FillRefuses(inner: string, environment: Environment, values: map<string, string>, message: string)
    ensures Fill(Token(inner), environment, values) == Err(message) <==>
      IsRefusedFor(inner, environment, values, message)
    ensures Fill(Token(inner), environment, values).Ok? <==> IsFillable(inner, environment, values)
  {
    var name := NameOf(inner, environment);
    NameExactly(inner, environment, name);
    TokenExactly(inner, environment, values);
    hide IsToken, NameOf, IsAccountId, IsSafeValue, BelongsHere, IsGoodValue, TokenIsGood, Raw, Spells;
    if name in values {
      GoodExactly(name, values[name]);
      GoodExactly("", values[name]);
      SafeIsNotEmpty(values[name]);
      assert "" != "AWS_ACCOUNT_ID";
    }
  }

  /** The token at `k` is the first that the callback refuses. */
  ghost predicate RefusesFirst(
    pieces: seq<Piece>, k: nat, environment: Environment, values: map<string, string>, message: string)
  {
    && k < |pieces| && pieces[k].Token? && IsRefusedFor(pieces[k].inner, environment, values, message)
    && forall j :: 0 <= j < k && pieces[j].Token? ==> IsFillable(pieces[j].inner, environment, values)
  }

  /** Some token is the first to be refused, with these words. */
  ghost predicate IsRefused(
    pieces: seq<Piece>, environment: Environment, values: map<string, string>, message: string)
  {
    exists k: nat :: RefusesFirst(pieces, k, environment, values, message)
  }

  lemma {:induction false} FillAllRefuses(
    pieces: seq<Piece>, environment: Environment, values: map<string, string>, message: string)
    ensures FillAll(pieces, environment, values) == Err(message) <==>
      IsRefused(pieces, environment, values, message)
  {
    hide IsRefusedFor, IsFillable, Fill;
    if pieces != [] {
      var head, tail := pieces[0], pieces[1..];
      FillAllRefuses(tail, environment, values, message);
      if head.Token? {
        FillRefuses(head.inner, environment, values, message);
      } else {
        TextIsFilled(head, environment, values);
      }
      forall k: nat | RefusesFirst(tail, k, environment, values, message) && Fill(head, environment, values).Ok?
        ensures RefusesFirst(pieces, k + 1, environment, values, message)
      {
        assert forall j :: 1 <= j <= k ==> pieces[j] == tail[j - 1];
      }
      forall k: nat | RefusesFirst(pieces, k, environment, values, message)
        ensures if k == 0 then Fill(head, environment, values) == Err(message)
                else Fill(head, environment, values).Ok? && RefusesFirst(tail, k - 1, environment, values, message)
      {
        assert forall j :: 0 <= j < |tail| ==> tail[j] == pieces[j + 1];
      }
      if head.Token? && Fill(head, environment, values) == Err(message) {
        assert RefusesFirst(pieces, 0, environment, values, message);
      }
    }
  }

  lemma TextIsFilled(piece: Piece, environment: Environment, values: map<string, string>)
    ensures piece.Text? ==> Fill(piece, environment, values).Ok?
  {
  }

  /**
   * Which refusal a source meets: that of the first token of this environment
   * whose value is missing, unsafe or no account id; where there is none, that
   * of a token left over.
   */
  lemma RefusesExactly(source: string, environment: Environment, values: map<string, string>, message: string)
    ensures
      var r := Substitute(source, environment, values);
      && (r == Err(message) && message != "unresolved deploy token" <==>
            IsRefused(Pieces(source, 0), environment, values, message))
  {
    hide HasToken, Pieces, FillAll, IsRefused;
    var pieces := Pieces(source, 0);
    FillAllRefuses(pieces, environment, values, message);
    if message == "unresolved deploy token" {
      NeverUnresolved(pieces, environment, values);
    }
  }

  lemma NeverUnresolved(pieces: seq<Piece>, environment: Environment, values: map<string, string>)
    ensures !IsRefused(pieces, environment, values, "unresolved deploy token")
  {
    assert "unresolved deploy token"[0] == 'u' && "value is required"[0] == 'v';
    assert "characters a manifest value cannot hold"[0] == 'c' && "must be a 12-digit account id"[0] == 'm';
  }

  lemma {:induction false} NoTokenNoChange(
    s: string, i: nat, environment: Environment, values: map<string, string>)
    requires !HasToken(s) && i <= |s|
    ensures FillAll(Pieces(s, i), environment, values) == Ok(s[i..])
    decreases |s| - i
  {
    hide HasToken, TokenEnd;
    ScannerFindsTokens(s);
    if i < |s| {
      assert TokenEnd(s, i).None?;
      NoTokenNoChange(s, i + 1, environment, values);
      assert s[i..] == [s[i]] + s[i + 1..];
      assert Pieces(s, i)[1..] == Pieces(s, i + 1);
    } else {
      assert s[i..] == "";
    }
  }

  /** A text without tokens is returned unchanged, in every environment, whatever the values. */
  lemma CleanTextIsUnchanged(s: string, environment: Environment, values: map<string, string>)
    requires !HasToken(s)
    ensures Substitute(s, environment, values) == Ok(s)
  {
    hide HasToken, Pieces, FillAll;
    NoTokenNoChange(s, 0, environment, values);
    assert s[0..] == s;
  }

  /** The result is a fixpoint: filling it again, for any environment and values, changes nothing. */
  lemma SecondFillChangesNothing(
    source: string, environment: Environment, values: map<string, string>, other: Environment,
    otherValues: map<string, string>)
    requires Substitute(source, environment, values).Ok?
    ensures
      var out := Substitute(source, environment, values);
      Substitute(out.value, other, otherValues) == out
  {
    hide HasToken, Pieces, FillAll;
    CleanTextIsUnchanged(Substitute(source, environment, values).value, other, otherValues);
  }

  // ---- One environment's tokens in another -------------------------------------------

  /** No `__` anywhere, and no underscore at the end. */
  predicate IsPlainName(inner: string) {
    && inner != "" && inner[|inner| - 1] != '_' && IsToken(inner)
    && forall i :: 0 <= i < |inner| - 1 ==> inner[i] != '_' || inner[i + 1] != '_'
  }

  lemma {:induction false} ClosesAtEnd(s: string, inner: string, k: nat)
    requires s == "__" + inner + "__" && IsPlainName(inner) && 3 <= k <= |inner| + 2
    ensures CloseAt(s, k) == Some(|inner| + 2)
    decreases |inner| + 2 - k
  {
    if k < |inner| + 2 {
      assert s[k] == inner[k - 2] && (k + 1 < |inner| + 2 ==> s[k + 1] == inner[k - 1]);
      ClosesAtEnd(s, inner, k + 1);
    }
  }

  /** A text that is one token is scanned as that token. */
  lemma OneToken(inner: string)
    requires IsPlainName(inner)
    ensures Pieces("__" + inner + "__", 0) == [Token(inner)]
  {
    var s := "__" + inner + "__";
    assert s[2] == inner[0] && s[2..|inner| + 2] == inner;
    ClosesAtEnd(s, inner, 3);
    assert Pieces(s, |s|) == [];
  }

  lemma PlainPrefixes()
    ensures IsPlainName("PRODUCTION") && IsPlainName("STAGING") && IsPlainName("AWS_ACCOUNT_ID")
  {
  }

  lemma PlainBuckets()
    ensures IsPlainName("S3_BUCKET_EVIDENCE") && IsPlainName("S3_BUCKET_QUARANTINE")
  {
  }

  lemma PlainOthers()
    ensures IsPlainName("S3_BUCKET_AUDIT_ANCHORS") && IsPlainName("S3_KMS_KEY_ID")
  {
  }

  lemma PlainNames(name: string)
    requires IsValueName(name)
    ensures IsPlainName(name) && name[0] != '_' && IsPlainName("PRODUCTION") && IsPlainName("STAGING")
  {
    PlainPrefixes();
    PlainBuckets();
    PlainOthers();
    hide IsPlainName;
  }

  lemma PlainPair(first: string, second: string)
    requires IsPlainName(first) && IsPlainName(second) && second[0] != '_'
    ensures IsPlainName(first + "_" + second)
  {
    var both := first + "_" + second;
    assert forall i :: 0 <= i < |first| ==> both[i] == first[i];
    assert forall i :: 0 <= i < |second| ==> both[|first| + 1 + i] == second[i];
    assert forall i :: |first| < i < |both| ==> both[i] == second[i - |first| - 1];
  }

  /**
   * A token of one environment is filled there, with a good value that brings
   * no token along, and refused in the other, wherever it stands and whatever
   * the values.
   */
  lemma EnvironmentsAreApart(name: string, source: string, values: map<string, string>)
    requires IsValueName(name)
    ensures name in values && IsGoodValue(name, values[name]) && !HasToken(values[name]) ==>
      && Substitute("__" + ("PRODUCTION" + "_" + name) + "__", Production, values) == Ok(values[name])
      && Substitute("__" + ("STAGING" + "_" + name) + "__", Staging, values) == Ok(values[name])
    ensures Token("PRODUCTION" + "_" + name) in Pieces(source, 0) ==> Substitute(source, Staging, values).Err?
    ensures Token("STAGING" + "_" + name) in Pieces(source, 0) ==> Substitute(source, Production, values).Err?
  {
    PlainNames(name);
    NamesApart(name);
    hide HasToken, Pieces, Substitute, IsPlainName, IsGoodValue, AllGood, Spells, IsValueName;
    FilledAlone("PRODUCTION", name, Production, values);
    FilledAlone("STAGING", name, Staging, values);
    RefusedToken("PRODUCTION" + "_" + name, source, Staging, values);
    RefusedToken("STAGING" + "_" + name, source, Production, values);
  }

  /** What spells a value in one environment spells none in the other. */
  lemma NamesApart(name: string)
    ensures forall other :: !Spells("PRODUCTION" + "_" + name, Staging, other)
    ensures forall other :: !Spells("STAGING" + "_" + name, Production, other)
  {
    var production, staging := "PRODUCTION" + "_" + name, "STAGING" + "_" + name;
    assert production[0] == 'P' && staging[0] == 'S' && "AWS_ACCOUNT_ID"[0] == 'A';
    assert forall other: string :: ("STAGING_" + other)[0] == 'S' && ("PRODUCTION_" + other)[0] == 'P';
  }

  lemma FilledAlone(prefix: string, name: string, environment: Environment, values: map<string, string>)
    requires prefix == (match environment case Production => "PRODUCTION" case Staging => "STAGING")
    requires IsPlainName(prefix) && IsPlainName(name) && name[0] != '_' && IsValueName(name)
    ensures name in values && IsGoodValue(name, values[name]) && !HasToken(values[name]) ==>
      Substitute("__" + (prefix + "_" + name) + "__", environment, values) == Ok(values[name])
  {
    var inner := prefix + "_" + name;
    PlainPair(prefix, name);
    OneToken(inner);
    SpelledBehind(prefix, name, environment);
    hide HasToken, Pieces, IsPlainName, IsGoodValue, IsToken, Fill, Spells, IsValueName, NameOf;
    FillMeans(Token(inner), environment, values);
    NameExactly(inner, environment, name);
    if name in values && IsGoodValue(name, values[name]) {
      assert TokenIsGood(inner, environment, values);
      var pieces := [Token(inner)];
      assert pieces[1..] == [] && FillAll(pieces[1..], environment, values) == Ok("");
      assert Fill(pieces[0], environment, values) == Ok(values[name]);
      assert values[name] + "" == values[name];
      assert FillAll(pieces, environment, values) == Ok(values[name]);
    }
  }

  lemma SpelledBehind(prefix: string, name: string, environment: Environment)
    requires prefix == (match environment case Production => "PRODUCTION" case Staging => "STAGING")
    requires IsValueName(name)
    ensures Spells(prefix + "_" + name, environment, name)
  {
    assert prefix + "_" == match environment case Production => "PRODUCTION_" case Staging => "STAGING_";
  }

  lemma RefusedToken(inner: string, source: string, environment: Environment, values: map<string, string>)
    requires forall name :: !Spells(inner, environment, name)
    ensures Token(inner) in Pieces(source, 0) ==> Substitute(source, environment, values).Err?
  {
    hide HasToken, Pieces, Substitute, Spells;
    SucceedsExactly(source, environment, values);
    assert !TokenIsGood(inner, environment, values);
  }
}
