/**
 * Pinning the two images of a kustomization: an exact scan for one image entry,
 * a replacement of its tag by a digest, and the order of the two pins.
 */
module ImagePins {
  import opened Common
  import opened MigrationText
  import opened ReleaseJob

  // ---- The pattern ------------------------------------------------------------------

  /** `\r?\n` from `i` to `j`. */
  predicate EolBetween(u: string, i: nat, j: nat) {
    j <= |u| && ((j == i + 1 && u[i] == '\n') || (j == i + 2 && u[i] == '\r' && u[i + 1] == '\n'))
  }

  function EolEnd(u: string, i: nat): (r: Option<nat>)
    ensures forall j: nat :: r == Some(j) <==> EolBetween(u, i, j)
  {
    if i < |u| && u[i] == '\n' then Some(i + 1)
    else if i + 1 < |u| && u[i] == '\r' && u[i + 1] == '\n' then Some(i + 2)
    else None
  }

  /** `\S*` */
  function WordEnd(u: string, i: nat): (j: nat)
    requires i <= |u|
    ensures i <= j <= |u| && (j < |u| ==> IsSpace(u[j]))
    ensures forall x :: i <= x < j ==> !IsSpace(u[x])
    decreases |u| - i
  {
    if i < |u| && !IsSpace(u[i]) then WordEnd(u, i + 1) else i
  }

  /** An indented `key: value`: where the key, the value and the rest begin. */
  datatype Field = Field(key: nat, value: nat, end: nat)

  /** `[ \t]+key\s*\S+` from `i`. */
  ghost predicate IsField(u: string, key: string, i: nat, f: Field) {
    && i < f.key && f.key + |key| <= f.value < f.end <= |u|
    && (forall x :: i <= x < f.key ==> IsBlank(u[x]))
    && OccursAt(u, key, f.key)
    && (forall x :: f.key + |key| <= x < f.value ==> IsSpace(u[x]))
    && (forall x :: f.value <= x < f.end ==> !IsSpace(u[x]))
    && (f.end < |u| ==> IsSpace(u[f.end]))
  }

  function FieldOf(u: string, key: string, i: nat): Option<Field>
    requires i <= |u|
  {
    var start := SkipBlanks(u, i);
    if start == i || !OccursAt(u, key, start) then None
    else
      var value := SkipSpaces(u, start + |key|);
      var end := WordEnd(u, value);
      if end == value then None else Some(Field(start, value, end))
  }

  lemma {:induction false} SkipBlanksAt(u: string, i: nat, j: nat)
    requires i <= j < |u| && !IsBlank(u[j]) && forall x :: i <= x < j ==> IsBlank(u[x])
    ensures SkipBlanks(u, i) == j
    decreases j - i
  {
    if i < j {
      SkipBlanksAt(u, i + 1, j);
    }
  }

  lemma {:induction false} SkipSpacesAt(u: string, i: nat, j: nat)
    requires i <= j < |u| && !IsSpace(u[j]) && forall x :: i <= x < j ==> IsSpace(u[x])
    ensures SkipSpaces(u, i) == j
    decreases j - i
  {
    if i < j {
      SkipSpacesAt(u, i + 1, j);
    }
  }

  lemma {:induction false} SkipBlanksIs(u: string, i: nat)
    requires i <= |u|
    ensures SkipBlanks(u, i) < |u| ==> !IsBlank(u[SkipBlanks(u, i)])
    ensures forall x :: i <= x < SkipBlanks(u, i) ==> IsBlank(u[x])
    decreases |u| - i
  {
    if i < |u| && IsBlank(u[i]) {
      SkipBlanksIs(u, i + 1);
    }
  }

  lemma {:induction false} SkipSpacesIs(u: string, i: nat)
    requires i <= |u|
    ensures SkipSpaces(u, i) < |u| ==> !IsSpace(u[SkipSpaces(u, i)])
    ensures forall x :: i <= x < SkipSpaces(u, i) ==> IsSpace(u[x])
    decreases |u| - i
  {
    if i < |u| && IsSpace(u[i]) {
      SkipSpacesIs(u, i + 1);
    }
  }

  lemma {:induction false} WordEndAt(u: string, i: nat, j: nat)
    requires i <= j <= |u| && (j < |u| ==> IsSpace(u[j])) && forall x :: i <= x < j ==> !IsSpace(u[x])
    ensures WordEnd(u, i) == j
    decreases j - i
  {
    if i < j {
      WordEndAt(u, i + 1, j);
    }
  }

  /** The scan never backtracks: it finds a field exactly when the text has that shape, and then only one. */
  lemma FieldExactly(u: string, key: string, i: nat, f: Field)
    requires i <= |u| && key != "" && !IsBlank(key[0])
    ensures FieldOf(u, key, i) == Some(f) <==> IsField(u, key, i, f)
  {
    hide IsSpace, IsBlank, SkipBlanks, SkipSpaces, WordEnd;
    SkipBlanksIs(u, i);
    if IsField(u, key, i, f) {
      assert u[f.key] == key[0];
      SkipBlanksAt(u, i, f.key);
      SkipSpacesAt(u, f.key + |key|, f.value);
      WordEndAt(u, f.value, f.end);
    } else if FieldOf(u, key, i).Some? {
      SkipSpacesIs(u, FieldOf(u, key, i).value.key + |key|);
    }
  }

  /** Where an entry's two lines and their fields are. */
  datatype Entry = Entry(indent: nat, newName: Field, indent2: nat, newTag: Field)

  const NEW_NAME := "newName:"
  const NEW_TAG := "newTag:"

  /** The entry at the start of `u`, as the pattern describes it; `head` is `- name: ` and the image's name. */
  ghost predicate IsEntry(u: string, head: string, m: Entry) {
    && head <= u && EolBetween(u, |head|, m.indent)
    && IsField(u, "newName:", m.indent, m.newName)
    && EolBetween(u, m.newName.end, m.indent2)
    && IsField(u, "newTag:", m.indent2, m.newTag)
  }

  /** The regular expression of `pinOne`, anchored at the start of `u`. */
  function EntryOf(u: string, head: string): Option<Entry> {
    if !(head <= u) then None
    else
      match EolEnd(u, |head|)
      case None => None
      case Some(indent) =>
        match FieldOf(u, NEW_NAME, indent)
        case None => None
        case Some(newName) =>
          match EolEnd(u, newName.end)
          case None => None
          case Some(indent2) =>
            match FieldOf(u, NEW_TAG, indent2)
            case None => None
            case Some(newTag) => Some(Entry(indent, newName, indent2, newTag))
  }

  lemma EntryExactly(u: string, head: string, m: Entry)
    ensures EntryOf(u, head) == Some(m) <==> IsEntry(u, head, m)
  {
    hide IsField, FieldOf;
    assert NEW_NAME[0] == NEW_TAG[0] == 'n';
    if head <= u && EolEnd(u, |head|).Some? {
      var indent := EolEnd(u, |head|).value;
      FieldExactly(u, NEW_NAME, indent, m.newName);
      if FieldOf(u, NEW_NAME, indent).Some? {
        var newName := FieldOf(u, NEW_NAME, indent).value;
        FieldExactly(u, NEW_NAME, indent, newName);
        if EolEnd(u, newName.end).Some? {
          FieldExactly(u, NEW_TAG, EolEnd(u, newName.end).value, m.newTag);
        }
      }
    }
  }

  // ---- Pinning one image ----------------------------------------------------------------

  /** One image: the name in the overlay, the release repository, and the digest. */
  datatype Pin = Pin(name: string, repository: string, digest: string)

  function Head(pin: Pin): string {
    "- name: " + pin.name
  }

  /** What stands in place of the name value, the line end, the tag line and its value. */
  function Replacement(u: string, m: Entry, pin: Pin): string
    requires m.newName.end <= m.indent2 <= |u| && m.indent <= m.newName.key <= |u|
  {
    "newName: " + pin.repository + u[m.newName.end..m.indent2] + u[m.indent..m.newName.key] + "digest: " + pin.digest
  }

  lemma EntryFits(u: string, head: string, m: Entry)
    requires IsEntry(u, head, m)
    ensures |head| < m.indent < m.newName.key < m.newName.end < m.indent2 < m.newTag.key < m.newTag.end <= |u|
  {
  }

  /** The entry at position `p`. */
  ghost predicate EntryAt(s: string, pin: Pin, p: nat, m: Entry) {
    p <= |s| && IsEntry(s[p..], Head(pin), m)
  }

  function Find(s: string, pin: Pin, from: nat): Option<(nat, Entry)>
    decreases |s| + 1 - from
  {
    if from > |s| then None
    else if EntryOf(s[from..], Head(pin)).Some? then Some((from, EntryOf(s[from..], Head(pin)).value))
    else Find(s, pin, from + 1)
  }

  /** The leftmost entry. */
  ghost predicate IsFirst(s: string, pin: Pin, p: nat, m: Entry) {
    EntryAt(s, pin, p, m) && forall x: nat, n :: x < p ==> !EntryAt(s, pin, x, n)
  }

  lemma SomeIsEntry(s: string, pin: Pin, p: nat)
    requires p <= |s| && EntryOf(s[p..], Head(pin)).Some?
    ensures EntryAt(s, pin, p, EntryOf(s[p..], Head(pin)).value)
  {
    hide EntryOf, IsEntry;
    EntryExactly(s[p..], Head(pin), EntryOf(s[p..], Head(pin)).value);
  }

  lemma {:induction false} FindIsFirst(s: string, pin: Pin, from: nat, p: nat, m: Entry)
    requires from <= p && EntryAt(s, pin, p, m)
    requires forall x: nat, n :: from <= x < p ==> !EntryAt(s, pin, x, n)
    ensures Find(s, pin, from) == Some((p, m))
    decreases p - from
  {
    hide EntryOf, IsEntry;
    if from < p {
      if EntryOf(s[from..], Head(pin)).Some? {
        SomeIsEntry(s, pin, from);
      }
      FindIsFirst(s, pin, from + 1, p, m);
    } else {
      EntryExactly(s[p..], Head(pin), m);
    }
  }

  lemma {:induction false} FindFinds(s: string, pin: Pin, from: nat)
    requires Find(s, pin, from).Some?
    ensures var (p, m) := Find(s, pin, from).value;
      from <= p && EntryAt(s, pin, p, m) && forall x: nat, n :: from <= x < p ==> !EntryAt(s, pin, x, n)
    decreases |s| + 1 - from
  {
    hide EntryOf, IsEntry;
    if EntryOf(s[from..], Head(pin)).Some? {
      EntryExactly(s[from..], Head(pin), EntryOf(s[from..], Head(pin)).value);
    } else {
      forall n
        ensures !EntryAt(s, pin, from, n)
      {
        EntryExactly(s[from..], Head(pin), n);
      }
      FindFinds(s, pin, from + 1);
    }
  }

  /** The text with the entry at `p` pinned: everything before its `newName:` and after its tag stays. */
  ghost function Pinned(s: string, pin: Pin, p: nat, m: Entry): string
    requires EntryAt(s, pin, p, m)
  {
    EntryFits(s[p..], Head(pin), m);
    s[..p + m.newName.key] + Replacement(s[p..], m, pin) + s[p + m.newTag.end..]
  }

  /** `pinOne`: the leftmost entry is replaced; without one it throws. */
  ghost function PinOne(s: string, pin: Pin): Option<string> {
    match Find(s, pin, 0)
    case None => None
    case Some(found) =>
      FindFinds(s, pin, 0);
      Some(Pinned(s, pin, found.0, found.1))
  }

  lemma PinOneIs(s: string, pin: Pin, p: nat, m: Entry)
    requires IsFirst(s, pin, p, m)
    ensures PinOne(s, pin) == Some(Pinned(s, pin, p, m))
  {
    hide IsEntry, Find, Pinned;
    FindIsFirst(s, pin, 0, p, m);
  }

  // ---- What two pins have to do with each other -------------------------------------------

  /** No dash in the name, and none before a blank in the repository or the digest. */
  predicate IsPlainPin(pin: Pin) {
    && (forall x :: 0 <= x < |pin.name| ==> pin.name[x] != '-')
    && IsCalm(pin.repository) && IsCalm(pin.digest)
  }

  /** Every dash is followed by something other than a blank. */
  predicate IsCalm(s: string) {
    forall x :: 0 <= x < |s| && s[x] == '-' ==> x + 1 < |s| && s[x + 1] != ' '
  }

  lemma CalmConcat(a: string, b: string)
    requires IsCalm(a) && IsCalm(b)
    ensures IsCalm(a + b)
  {
  }

  /** Neither image name is the beginning of the other. */
  predicate AreApart(a: string, b: string) {
    exists x: nat | x < |a| && x < |b| :: a[x] != b[x]
  }

  predicate DashBlank(u: string, x: nat) {
    x + 1 < |u| && u[x] == '-' && u[x + 1] == ' '
  }

  /** An entry is over at the latest where another list item's dash stands inside it. */
  lemma EndsAtDash(u: string, pin: Pin, m: Entry, x: nat)
    requires IsPlainPin(pin) && IsEntry(u, Head(pin), m) && 0 < x && DashBlank(u, x)
    ensures m.newTag.end <= x + 1
  {
    hide IsSpace, IsBlank;
    var head := Head(pin);
    assert forall k :: 0 <= k < |head| ==> u[k] == head[k];
    NoDashInField(u, NEW_NAME, m.indent, m.newName, x);
    NoDashInField(u, NEW_TAG, m.indent2, m.newTag, x);
  }

  lemma NoDashInField(u: string, key: string, i: nat, f: Field, x: nat)
    requires IsField(u, key, i, f) && DashBlank(u, x)
    requires forall k :: 0 <= k < |key| ==> key[k] != '-'
    ensures i <= x < f.end ==> x + 1 == f.end
  {
    CharsAt(u, key, f.key);
  }

  lemma CharsAt(u: string, pat: string, p: nat)
    requires OccursAt(u, pat, p)
    ensures forall y :: p <= y < p + |pat| ==> u[y] == pat[y - p]
  {
    assert forall k :: 0 <= k < |pat| ==> u[p..p + |pat|][k] == pat[k];
  }

  lemma SameEarly(u: string, v: string, head: string, m: Entry, n: nat)
    requires n <= |u| && n <= |v| && u[..n] == v[..n] && IsEntry(u, head, m) && m.newTag.end < n
    ensures IsEntry(v, head, m)
  {
    EntryFits(u, head, m);
    assert forall x :: 0 <= x < n ==> u[x] == v[x];
    assert v[..|head|] == u[..|head|];
    SameField(u, v, NEW_NAME, m.indent, m.newName, n);
    SameField(u, v, NEW_TAG, m.indent2, m.newTag, n);
  }

  lemma SameField(u: string, v: string, key: string, i: nat, f: Field, n: nat)
    requires n <= |u| && n <= |v| && (forall x :: 0 <= x < n ==> u[x] == v[x]) && IsField(u, key, i, f) && f.end < n
    ensures IsField(v, key, i, f)
  {
    assert v[f.key..f.key + |key|] == u[f.key..f.key + |key|];
  }

  // ---- A pinned text keeps the other entry ------------------------------------------------

  /** A head at `p` and a blank after its dash. */
  lemma HeadStarts(s: string, pin: Pin, p: nat)
    requires p <= |s|
    ensures Head(pin) <= s[p..] ==> DashBlank(s, p)
  {
    assert forall y :: 0 <= y < |s| - p ==> s[p..][y] == s[p + y];
  }

  lemma HeadsApart(s: string, a: Pin, b: Pin, p: nat)
    requires p <= |s| && AreApart(a.name, b.name) && Head(a) <= s[p..]
    ensures !(Head(b) <= s[p..])
  {
    var x: nat :| x < |a.name| && x < |b.name| && a.name[x] != b.name[x];
    assert Head(a)[8 + x] == a.name[x] && Head(b)[8 + x] == b.name[x];
  }

  /** Before a list item that both texts share, they have the same entries. */
  lemma SameBefore(s: string, t: string, pin: Pin, x: nat, k: nat, n: nat, m: Entry)
    requires IsPlainPin(pin) && x < k && k + 1 < n <= |s| && n <= |t| && s[..n] == t[..n] && DashBlank(s, k)
    requires EntryAt(s, pin, x, m)
    ensures EntryAt(t, pin, x, m) && x + m.newTag.end <= k + 1
  {
    hide IsEntry, IsPlainPin;
    var u, v := s[x..], t[x..];
    assert u[k - x] == s[k] && u[k - x + 1] == s[k + 1];
    EndsAtDash(u, pin, m, k - x);
    assert u[..n - x] == s[..n][x..] && v[..n - x] == t[..n][x..];
    SameEarly(u, v, Head(pin), m, n - x);
  }

  /** No list item begins inside what a pin puts in place. */
  lemma ReplacementIsCalm(u: string, m: Entry, pin: Pin)
    requires IsPlainPin(pin) && IsEntry(u, Head(pin), m)
    requires m.newName.end <= m.indent2 <= |u| && m.indent <= m.newName.key <= |u|
    ensures IsCalm(Replacement(u, m, pin))
  {
    var eol, indent := u[m.newName.end..m.indent2], u[m.indent..m.newName.key];
    PartsAreCalm(u, m, pin);
    hide IsCalm, IsEntry;
    CalmConcat("newName: ", pin.repository);
    CalmConcat("newName: " + pin.repository, eol);
    CalmConcat("newName: " + pin.repository + eol, indent);
    CalmConcat("newName: " + pin.repository + eol + indent, "digest: ");
    CalmConcat("newName: " + pin.repository + eol + indent + "digest: ", pin.digest);
  }

  lemma PartsAreCalm(u: string, m: Entry, pin: Pin)
    requires IsEntry(u, Head(pin), m)
    requires m.newName.end <= m.indent2 <= |u| && m.indent <= m.newName.key <= |u|
    ensures IsCalm(u[m.newName.end..m.indent2]) && IsCalm(u[m.indent..m.newName.key])
    ensures IsCalm("newName: ") && IsCalm("digest: ")
  {
    hide IsSpace;
    var indent := u[m.indent..m.newName.key];
    assert forall y :: 0 <= y < |indent| ==> indent[y] == u[m.indent + y];
  }

  /** Nor inside the part of the entry that stays. */
  lemma NoDashInHead(u: string, m: Entry, pin: Pin, x: nat)
    requires IsPlainPin(pin) && IsEntry(u, Head(pin), m) && 0 < x < m.newName.key
    ensures u[x] != '-'
  {
    var head := Head(pin);
    assert u[..|head|] == head;
    assert x < |head| ==> u[x] == head[x];
  }

  // ---- The two pins commute ---------------------------------------------------------------

  /** Where a pinned entry's replacement ends. */
  ghost function PinnedEnd(s: string, pin: Pin, p: nat, m: Entry): nat
    requires EntryAt(s, pin, p, m)
  {
    EntryFits(s[p..], Head(pin), m);
    p + m.newName.key + |Replacement(s[p..], m, pin)|
  }

  lemma PinnedParts(s: string, pin: Pin, p: nat, m: Entry)
    requires EntryAt(s, pin, p, m)
    ensures
      var t := Pinned(s, pin, p, m);
      var key, end := p + m.newName.key, PinnedEnd(s, pin, p, m);
      && p + 2 < key < end <= |t| && key < p + m.newTag.end <= |s|
      && t[..key] == s[..key] && t[key..end] == Replacement(s[p..], m, pin) && t[end..] == s[p + m.newTag.end..]
  {
    hide IsEntry;
    EntryFits(s[p..], Head(pin), m);
    assert |Head(pin)| == 8 + |pin.name|;
    var t, key, end := Pinned(s, pin, p, m), p + m.newName.key, PinnedEnd(s, pin, p, m);
    var r, tail := Replacement(s[p..], m, pin), s[p + m.newTag.end..];
    assert t == s[..key] + r + tail && |r| == end - key;
  }

  lemma CalmSlice(t: string, from: nat, end: nat, x: nat)
    requires from <= x < end <= |t| && IsCalm(t[from..end])
    ensures !DashBlank(t, x)
  {
    assert t[from..end][x - from] == t[x];
    assert x + 1 < end ==> t[from..end][x + 1 - from] == t[x + 1];
  }

  lemma CharOfPrefix(s: string, t: string, p: nat, key: nat, x: nat)
    requires p <= x < key <= |s| && key <= |t| && s[..key] == t[..key]
    ensures t[x] == s[p..][x - p]
  {
    assert t[x] == t[..key][x] && s[x] == s[..key][x];
  }

  /** Inside a pinned entry no other list item begins. */
  lemma NoItemInside(s: string, pin: Pin, p: nat, m: Entry, x: nat)
    requires EntryAt(s, pin, p, m) && IsPlainPin(pin)
    requires p < x < PinnedEnd(s, pin, p, m)
    ensures !DashBlank(Pinned(s, pin, p, m), x)
  {
    hide IsEntry, IsPlainPin, Pinned, Replacement, PinnedEnd, IsCalm;
    var t, key, end := Pinned(s, pin, p, m), p + m.newName.key, PinnedEnd(s, pin, p, m);
    PinnedParts(s, pin, p, m);
    EntryFits(s[p..], Head(pin), m);
    if x < key {
      NoDashInHead(s[p..], m, pin, x - p);
      CharOfPrefix(s, t, p, key, x);
    } else {
      ReplacementIsCalm(s[p..], m, pin);
      CalmSlice(t, key, end, x);
    }
  }

  /** Inside a pinned entry no entry of another image begins. */
  lemma NothingBeginsInside(s: string, pin: Pin, p: nat, m: Entry, other: Pin, x: nat, n: Entry)
    requires EntryAt(s, pin, p, m) && IsPlainPin(pin) && AreApart(pin.name, other.name)
    requires p <= x < PinnedEnd(s, pin, p, m)
    ensures !EntryAt(Pinned(s, pin, p, m), other, x, n)
  {
    var t := Pinned(s, pin, p, m);
    PinnedParts(s, pin, p, m);
    HeadStarts(t, other, x);
    if x == p {
      EntryFits(s[p..], Head(pin), m);
      SameHead(s, t, pin, p, p + m.newName.key);
      HeadsApart(t, pin, other, p);
    } else {
      NoItemInside(s, pin, p, m, x);
    }
  }

  lemma SameHead(s: string, t: string, pin: Pin, p: nat, n: nat)
    requires n <= |s| && n <= |t| && s[..n] == t[..n] && p + |Head(pin)| <= n && Head(pin) <= s[p..]
    ensures Head(pin) <= t[p..]
  {
    var l := |Head(pin)|;
    assert s[p..][..l] == s[..n][p..p + l] && t[p..][..l] == t[..n][p..p + l];
  }

  /** Two entries, the first over before the second begins. */
  ghost predicate InOrder(s: string, a: Pin, p: nat, m: Entry, b: Pin, q: nat, n: Entry) {
    && IsFirst(s, a, p, m) && IsFirst(s, b, q, n)
    && p + m.newTag.end <= q
  }

  /** Pinning the first leaves the second the leftmost of its kind, where it was but for the change in length. */
  lemma SecondStaysFirst(s: string, a: Pin, p: nat, m: Entry, b: Pin, q: nat, n: Entry)
    requires InOrder(s, a, p, m, b, q, n) && IsPlainPin(a) && IsPlainPin(b) && AreApart(a.name, b.name)
    ensures IsFirst(Pinned(s, a, p, m), b, PinnedEnd(s, a, p, m) + (q - (p + m.newTag.end)), n)
  {
    hide IsEntry, IsPlainPin, AreApart, Pinned, PinnedEnd, Replacement;
    var t, key, end, over := Pinned(s, a, p, m), p + m.newName.key, PinnedEnd(s, a, p, m), p + m.newTag.end;
    PinnedParts(s, a, p, m);
    HeadOf(s, a, p, m);
    var at := end + (q - over);
    assert t[at..] == t[end..][q - over..] && s[q..] == s[over..][q - over..];
    forall x: nat, k | x < at
      ensures !EntryAt(t, b, x, k)
    {
      if x < p {
        NoEarlier(s, t, a, p, key, b, x, k);
      } else if x < end {
        NothingBeginsInside(s, a, p, m, b, x, k);
      } else {
        SameFrom(s, t, over, end, b, x, k);
      }
    }
  }

  /** Behind the pin the texts have the same entries. */
  lemma SameFrom(s: string, t: string, over: nat, end: nat, pin: Pin, x: nat, k: Entry)
    requires over <= |s| && end <= |t| && s[over..] == t[end..] && end <= x
    ensures EntryAt(t, pin, x, k) <==> EntryAt(s, pin, over + (x - end), k)
  {
    hide IsEntry;
    if x <= |t| {
      assert t[x..] == t[end..][x - end..] && s[over + (x - end)..] == s[over..][x - end..];
    }
  }

  /** An entry of the pinned text before the pin was there before. */
  lemma NoEarlier(s: string, t: string, a: Pin, p: nat, key: nat, b: Pin, x: nat, k: Entry)
    requires p + 2 < key <= |s| && key <= |t| && s[..key] == t[..key] && x < p && p <= |s| && Head(a) <= s[p..]
    requires IsPlainPin(b) && !EntryAt(s, b, x, k)
    ensures !EntryAt(t, b, x, k)
  {
    hide IsEntry, IsPlainPin;
    HeadStarts(s, a, p);
    assert t[p] == t[..key][p] && s[p] == s[..key][p] && t[p + 1] == t[..key][p + 1] && s[p + 1] == s[..key][p + 1];
    if EntryAt(t, b, x, k) {
      SameBefore(t, s, b, x, p, key, k);
    }
  }

  /** Pinning the second leaves the first where it was. */
  lemma FirstStaysFirst(s: string, a: Pin, p: nat, m: Entry, b: Pin, q: nat, n: Entry)
    requires InOrder(s, a, p, m, b, q, n) && IsPlainPin(a) && IsPlainPin(b)
    ensures IsFirst(Pinned(s, b, q, n), a, p, m)
  {
    hide IsEntry, IsPlainPin, Pinned, PinnedEnd, Replacement;
    var t, key := Pinned(s, b, q, n), q + n.newName.key;
    PinnedParts(s, b, q, n);
    EntryFits(s[p..], Head(a), m);
    assert s[p..][..key - p] == s[..key][p..] && t[p..][..key - p] == t[..key][p..];
    SameEarly(s[p..], t[p..], Head(a), m, key - p);
    HeadOf(s, b, q, n);
    forall x: nat, k | x < p
      ensures !EntryAt(t, a, x, k)
    {
      NoEarlier(s, t, b, q, key, a, x, k);
    }
  }

  lemma HeadOf(s: string, pin: Pin, p: nat, m: Entry)
    requires EntryAt(s, pin, p, m)
    ensures Head(pin) <= s[p..]
  {
  }

  /** Both entries pinned at once; all other text is as it was. */
  ghost function BothPinned(s: string, a: Pin, p: nat, m: Entry, b: Pin, q: nat, n: Entry): string
    requires InOrder(s, a, p, m, b, q, n)
  {
    EntryFits(s[p..], Head(a), m);
    EntryFits(s[q..], Head(b), n);
    s[..p + m.newName.key] + Replacement(s[p..], m, a) + s[p + m.newTag.end..q + n.newName.key]
      + Replacement(s[q..], n, b) + s[q + n.newTag.end..]
  }

  lemma SameReplacement(u: string, v: string, m: Entry, pin: Pin)
    requires m.newName.end <= m.indent2 <= |u| && m.indent <= m.newName.key <= |u|
    requires m.newName.end <= m.indent2 <= |v| && m.indent <= m.newName.key <= |v|
    requires u[m.newName.end..m.indent2] == v[m.newName.end..m.indent2]
    requires u[m.indent..m.newName.key] == v[m.indent..m.newName.key]
    ensures Replacement(u, m, pin) == Replacement(v, m, pin)
  {
  }

  /** Pieces of a text that a later splice leaves alone. */
  lemma CutBefore(s: string, cut: nat, rest: string, x: nat, y: nat)
    requires x <= y <= cut <= |s|
    ensures (s[..cut] + rest)[x..y] == s[x..y]
    ensures (s[..cut] + rest)[y..] == s[y..cut] + rest
  {
  }

  /** Pieces of a text behind an earlier splice. */
  lemma CutAfter(pre: string, s: string, over: nat, x: nat)
    requires over + x <= |s|
    ensures (pre + s[over..])[|pre| + x..] == s[over + x..]
    ensures (pre + s[over..])[..|pre| + x] == pre + s[over..over + x]
  {
  }

  /** A second splice, behind the first. */
  lemma SpliceAfter(pre: string, s: string, over: nat, x: nat, y: nat, mid: string)
    requires over + x <= |s| && over + y <= |s|
    ensures
      var t := pre + s[over..];
      t[..|pre| + x] + mid + t[|pre| + y..] == pre + s[over..over + x] + mid + s[over + y..]
  {
    CutAfter(pre, s, over, x);
    CutAfter(pre, s, over, y);
  }

  /** The replacement of the entry at `p`. */
  ghost function NewText(s: string, pin: Pin, p: nat, m: Entry): string
    requires EntryAt(s, pin, p, m)
  {
    EntryFits(s[p..], Head(pin), m);
    Replacement(s[p..], m, pin)
  }

  lemma PinnedIs(s: string, pin: Pin, p: nat, m: Entry)
    requires EntryAt(s, pin, p, m)
    ensures p + m.newName.key < p + m.newTag.end <= |s|
    ensures Pinned(s, pin, p, m) == s[..p + m.newName.key] + NewText(s, pin, p, m) + s[p + m.newTag.end..]
    ensures PinnedEnd(s, pin, p, m) == p + m.newName.key + |NewText(s, pin, p, m)|
  {
    hide IsEntry, Replacement;
    EntryFits(s[p..], Head(pin), m);
  }

  lemma BothPinnedIs(s: string, a: Pin, p: nat, m: Entry, b: Pin, q: nat, n: Entry)
    requires InOrder(s, a, p, m, b, q, n)
    ensures p + m.newName.key < p + m.newTag.end <= q < q + n.newName.key < q + n.newTag.end <= |s|
    ensures BothPinned(s, a, p, m, b, q, n) ==
      s[..p + m.newName.key] + NewText(s, a, p, m) + s[p + m.newTag.end..q + n.newName.key] + NewText(s, b, q, n)
        + s[q + n.newTag.end..]
  {
    hide IsEntry, Replacement;
    EntryFits(s[p..], Head(a), m);
    EntryFits(s[q..], Head(b), n);
  }

  lemma SameNewText(s: string, t: string, pin: Pin, p: nat, q: nat, m: Entry)
    requires EntryAt(s, pin, p, m) && EntryAt(t, pin, q, m) && s[p..] == t[q..]
    ensures NewText(s, pin, p, m) == NewText(t, pin, q, m)
  {
  }

  lemma FirstThenSecond(s: string, a: Pin, p: nat, m: Entry, b: Pin, q: nat, n: Entry)
    requires InOrder(s, a, p, m, b, q, n)
    requires EntryAt(Pinned(s, a, p, m), b, PinnedEnd(s, a, p, m) + (q - (p + m.newTag.end)), n)
    ensures Pinned(Pinned(s, a, p, m), b, PinnedEnd(s, a, p, m) + (q - (p + m.newTag.end)), n)
      == BothPinned(s, a, p, m, b, q, n)
  {
    hide IsEntry, Pinned, PinnedEnd, BothPinned, NewText;
    var t, over := Pinned(s, a, p, m), p + m.newTag.end;
    PinnedIs(s, a, p, m);
    BothPinnedIs(s, a, p, m, b, q, n);
    var pre := s[..p + m.newName.key] + NewText(s, a, p, m);
    var at := |pre| + (q - over);
    PinnedIs(t, b, at, n);
    CutAfter(pre, s, over, q - over);
    SameNewText(s, t, b, q, at, n);
    SpliceAfter(pre, s, over, q - over + n.newName.key, q - over + n.newTag.end, NewText(s, b, q, n));
  }

  /** The first entry's own text is untouched by the second pin. */
  lemma FirstIsUntouched(s: string, t: string, a: Pin, p: nat, m: Entry, key: nat)
    requires EntryAt(s, a, p, m) && EntryAt(t, a, p, m) && p + m.newTag.end <= key <= |s| && key <= |t|
    requires t[..key] == s[..key]
    ensures (EntryFits(s[p..], Head(a), m); EntryFits(t[p..], Head(a), m);
             Replacement(s[p..], m, a) == Replacement(t[p..], m, a))
  {
    hide IsEntry, Replacement;
    EntryFits(s[p..], Head(a), m);
    EntryFits(t[p..], Head(a), m);
    assert s[p..][..key - p] == s[..key][p..] && t[p..][..key - p] == t[..key][p..];
    SameParts(s[p..][..key - p], s[p..], 0, m.newName.end, m.indent2);
    SameParts(s[p..][..key - p], s[p..], 0, m.indent, m.newName.key);
    SameParts(t[p..][..key - p], t[p..], 0, m.newName.end, m.indent2);
    SameParts(t[p..][..key - p], t[p..], 0, m.indent, m.newName.key);
    SameReplacement(s[p..], t[p..], m, a);
  }

  lemma SecondThenFirst(s: string, a: Pin, p: nat, m: Entry, b: Pin, q: nat, n: Entry)
    requires InOrder(s, a, p, m, b, q, n) && EntryAt(Pinned(s, b, q, n), a, p, m)
    ensures Pinned(Pinned(s, b, q, n), a, p, m) == BothPinned(s, a, p, m, b, q, n)
  {
    hide IsEntry, Replacement;
    EntryFits(s[p..], Head(a), m);
    EntryFits(s[q..], Head(b), n);
    var t, key, over := Pinned(s, b, q, n), q + n.newName.key, p + m.newTag.end;
    var rest := Replacement(s[q..], n, b) + s[q + n.newTag.end..];
    assert t == s[..key] + rest;
    CutBefore(s, key, rest, 0, p + m.newName.key);
    CutBefore(s, key, rest, 0, over);
    CutBefore(s, key, rest, 0, key);
    FirstIsUntouched(s, t, a, p, m, key);
  }

  lemma SameParts(s: string, t: string, p: nat, x: nat, y: nat)
    requires x <= y && p + y <= |s| && p + y <= |t| && s[p + x..p + y] == t[p + x..p + y]
    ensures s[p..][x..y] == t[p..][x..y]
  {
    assert s[p..][x..y] == s[p + x..p + y] && t[p..][x..y] == t[p + x..p + y];
  }

  /**
   * The two pins commute: when the leftmost entries of the two images do not
   * overlap, pinning one and then the other gives the same text in either
   * order, which is the source with the two entries' repository and digest in
   * place and every other character as it was.
   */
  lemma PinsCommute(s: string, a: Pin, p: nat, m: Entry, b: Pin, q: nat, n: Entry)
    requires InOrder(s, a, p, m, b, q, n) && IsPlainPin(a) && IsPlainPin(b) && AreApart(a.name, b.name)
    ensures PinOne(s, a).Some? && PinOne(PinOne(s, a).value, b) == Some(BothPinned(s, a, p, m, b, q, n))
    ensures PinOne(s, b).Some? && PinOne(PinOne(s, b).value, a) == Some(BothPinned(s, a, p, m, b, q, n))
  {
    hide IsEntry, IsPlainPin, AreApart, Pinned, PinnedEnd, Replacement, PinOne, BothPinned;
    PinOneIs(s, a, p, m);
    PinOneIs(s, b, q, n);
    SecondStaysFirst(s, a, p, m, b, q, n);
    PinOneIs(Pinned(s, a, p, m), b, PinnedEnd(s, a, p, m) + (q - (p + m.newTag.end)), n);
    FirstThenSecond(s, a, p, m, b, q, n);
    FirstStaysFirst(s, a, p, m, b, q, n);
    PinOneIs(Pinned(s, b, q, n), a, p, m);
    SecondThenFirst(s, a, p, m, b, q, n);
  }

  /**
   * Entries of two images can only overlap in one character: the first has no
   * tag of its own, and the dash of the second is read as one.
   */
  lemma OverlapIsOneDash(s: string, a: Pin, p: nat, m: Entry, b: Pin, q: nat, n: Entry)
    requires IsPlainPin(a) && EntryAt(s, a, p, m) && EntryAt(s, b, q, n) && p < q
    ensures p + m.newTag.end <= q + 1
  {
    hide IsEntry, IsPlainPin;
    HeadOf(s, b, q, n);
    HeadStarts(s, b, q);
    assert s[p..][q - p] == s[q] && s[p..][q - p + 1] == s[q + 1];
    EndsAtDash(s[p..], a, m, q - p);
  }

  // ---- Both images ------------------------------------------------------------------------

  /** `/\bnewTag\s*:/` matches somewhere. */
  ghost predicate HasFloatingTag(s: string) {
    exists i: nat :: IsFloating(s, i)
  }

  predicate IsFloating(s: string, i: nat) {
    && OccursAt(s, "newTag", i) && WordStarts(s, i)
    && SkipSpaces(s, i + 6) < |s| && s[SkipSpaces(s, i + 6)] == ':'
  }

  datatype PinResult = PinnedText(text: string) | NotADigest | MissingImage | StillFloating

  ghost function PinTwo(source: string, first: Pin, second: Pin): PinResult {
    match PinOne(source, first)
    case None => MissingImage
    case Some(once) =>
      match PinOne(once, second)
      case None => MissingImage
      case Some(twice) => IfNoneFloats(twice)
  }

  ghost function IfNoneFloats(text: string): PinResult {
    if HasFloatingTag(text) then StillFloating else PinnedText(text)
  }

  // ---- Where the order matters --------------------------------------------------------------

  /** The tag of an entry is a floating tag of any text that holds it with the blank before it. */
  lemma EntryFloats(s: string, pin: Pin, p: nat, m: Entry, t: string, i: nat)
    requires EntryAt(s, pin, p, m) && 0 < i && i + 7 <= |t|
    requires t[i - 1..i + 7] == s[p..][m.newTag.key - 1..m.newTag.key + 7]
    ensures IsFloating(t, i)
  {
    var u, k := s[p..], m.newTag.key;
    assert IsBlank(u[k - 1]);
    var w := u[k - 1..k + 7];
    CharsAt(u, w, k - 1);
    CharsAt(t, w, i - 1);
    CharsAt(u, NEW_TAG, k);
    assert forall y :: i <= y < i + 7 ==> t[y] == NEW_TAG[y - i];
    assert "newTag" == NEW_TAG[..6];
    assert t[i..i + 6] == NEW_TAG[..6];
  }

  /** After a pin that read another entry's dash, an entry of the other image can only stand behind that entry's tag. */
  lemma LaterEntryIsBehind(
    s: string, a: Pin, p: nat, m: Entry, b: Pin, q: nat, n: Entry, x: nat, k: Entry)
    requires IsPlainPin(a) && IsPlainPin(b) && AreApart(a.name, b.name)
    requires IsFirst(s, a, p, m) && IsFirst(s, b, q, n) && p < q && q + 1 == p + m.newTag.end
    requires EntryAt(Pinned(s, a, p, m), b, x, k)
    ensures x >= PinnedEnd(s, a, p, m) + n.newTag.key + 6
  {
    hide IsEntry, IsPlainPin, AreApart, Pinned, PinnedEnd, Replacement;
    var t, key, end, over := Pinned(s, a, p, m), p + m.newName.key, PinnedEnd(s, a, p, m), p + m.newTag.end;
    PinnedParts(s, a, p, m);
    HeadOf(s, a, p, m);
    EntryFits(s[q..], Head(b), n);
    if x < p {
      NoEarlier(s, t, a, p, key, b, x, k);
    } else if x < end {
      NothingBeginsInside(s, a, p, m, b, x, k);
    } else {
      SameFrom(s, t, over, end, b, x, k);
      OverlapIsOneDash(s, b, q, n, b, over + (x - end), k);
      TagBeforeEnd(s[q..], Head(b), n);
    }
  }

  lemma TagBeforeEnd(u: string, head: string, m: Entry)
    requires IsEntry(u, head, m)
    ensures m.newTag.key + 8 <= m.newTag.end
  {
  }

  /** Pinning the first of two overlapping entries first never succeeds: the other's tag stays floating. */
  lemma OverlapFloats(s: string, a: Pin, p: nat, m: Entry, b: Pin, q: nat, n: Entry)
    requires IsPlainPin(a) && IsPlainPin(b) && AreApart(a.name, b.name)
    requires IsFirst(s, a, p, m) && IsFirst(s, b, q, n) && p < q && q + 1 == p + m.newTag.end
    ensures !PinTwo(s, a, b).PinnedText?
  {
    hide IsEntry, IsPlainPin, AreApart, Pinned, PinnedEnd, Replacement;
    var t, end := Pinned(s, a, p, m), PinnedEnd(s, a, p, m);
    PinOneIs(s, a, p, m);
    if PinOne(t, b).Some? {
      FindFinds(t, b, 0);
      var (x, k) := Find(t, b, 0).value;
      LaterEntryIsBehind(s, a, p, m, b, q, n, x, k);
      TagSurvives(s, a, p, m, b, q, n, x, k);
    }
  }

  lemma TagSurvives(
    s: string, a: Pin, p: nat, m: Entry, b: Pin, q: nat, n: Entry, x: nat, k: Entry)
    requires EntryAt(s, a, p, m) && EntryAt(s, b, q, n) && q + 1 == p + m.newTag.end
    requires EntryAt(Pinned(s, a, p, m), b, x, k) && x >= PinnedEnd(s, a, p, m) + n.newTag.key + 6
    ensures HasFloatingTag(Pinned(Pinned(s, a, p, m), b, x, k))
  {
    hide IsEntry, Pinned, PinnedEnd, Replacement, IsFloating;
    var t, end := Pinned(s, a, p, m), PinnedEnd(s, a, p, m);
    PinnedParts(s, a, p, m);
    PinnedParts(t, b, x, k);
    EntryFits(s[q..], Head(b), n);
    var r, i := Pinned(t, b, x, k), end + n.newTag.key - 1;
    TagBeforeEnd(s[q..], Head(b), n);
    var cut := x + k.newName.key;
    assert r[i - 1..i + 7] == r[..cut][i - 1..i + 7] == t[..cut][i - 1..i + 7] == t[i - 1..i + 7];
    assert t[i - 1..i + 7] == t[end..][n.newTag.key - 2..n.newTag.key + 6];
    assert s[q + 1..][n.newTag.key - 2..n.newTag.key + 6] == s[q..][n.newTag.key - 1..n.newTag.key + 7];
    EntryFloats(s, b, q, n, r, i);
  }

  function AppPin(release: ReleaseImages): Pin
    requires IsDigestImage(release.appImage, APP_IMAGE_REPOSITORY)
  {
    Pin("blakpath/app", APP_IMAGE_REPOSITORY, release.appImage[|APP_IMAGE_REPOSITORY| + 1..])
  }

  function WorkerPin(release: ReleaseImages): Pin
    requires IsDigestImage(release.workerImage, WORKER_IMAGE_REPOSITORY)
  {
    Pin("blakpath/worker", WORKER_IMAGE_REPOSITORY, release.workerImage[|WORKER_IMAGE_REPOSITORY| + 1..])
  }

  /** `pinKustomizationImages` */
  ghost function PinKustomizationImages(source: string, release: ReleaseImages): PinResult {
    if !IsDigestImage(release.appImage, APP_IMAGE_REPOSITORY)
       || !IsDigestImage(release.workerImage, WORKER_IMAGE_REPOSITORY) then NotADigest
    else PinTwo(source, AppPin(release), WorkerPin(release))
  }

  predicate NoDash(s: string) {
    forall x :: 0 <= x < |s| ==> s[x] != '-'
  }

  lemma RepositoriesAreCalm()
    ensures IsCalm(APP_IMAGE_REPOSITORY) && IsCalm(WORKER_IMAGE_REPOSITORY)
  {
    RegistryPartsAreCalm();
    hide IsCalm, ECR_ACCOUNT, ECR_REGION, ECR_DOMAIN;
    CalmConcat(ECR_ACCOUNT, ECR_REGION);
    CalmConcat(ECR_ACCOUNT + ECR_REGION, ECR_DOMAIN);
    CalmConcat(ECR_REGISTRY, "/blakpath/app");
    CalmConcat(ECR_REGISTRY, "/blakpath/worker");
  }

  lemma RegistryPartsAreCalm()
    ensures IsCalm(ECR_ACCOUNT) && IsCalm(ECR_REGION) && IsCalm(ECR_DOMAIN)
    ensures IsCalm("/blakpath/app") && IsCalm("/blakpath/worker")
  {
  }

  lemma DigestHasNoDash(image: string, repository: string)
    requires IsDigestImage(image, repository)
    ensures NoDash(image[|repository| + 1..])
  {
    var head := repository + "@sha256:";
    var digest := image[|repository| + 1..];
    assert forall x :: 0 <= x < 7 ==> digest[x] == head[|repository| + 1 + x] == "sha256:"[x];
    assert forall x :: 7 <= x < |digest| ==> IsHex(digest[x]);
  }

  /** The two pins of a release meet what the pins need of each other. */
  lemma ReleasePinsAreApart(release: ReleaseImages)
    requires IsDigestImage(release.appImage, APP_IMAGE_REPOSITORY)
    requires IsDigestImage(release.workerImage, WORKER_IMAGE_REPOSITORY)
    ensures IsPlainPin(AppPin(release)) && IsPlainPin(WorkerPin(release))
    ensures AreApart(AppPin(release).name, WorkerPin(release).name)
    ensures AreApart(WorkerPin(release).name, AppPin(release).name)
  {
    RepositoriesAreCalm();
    DigestHasNoDash(release.appImage, APP_IMAGE_REPOSITORY);
    DigestHasNoDash(release.workerImage, WORKER_IMAGE_REPOSITORY);
    hide IsDigestImage, APP_IMAGE_REPOSITORY, WORKER_IMAGE_REPOSITORY;
    assert "blakpath/app"[9] != "blakpath/worker"[9];
  }

  lemma TwoPinsInOrder(s: string, a: Pin, p: nat, m: Entry, b: Pin, q: nat, n: Entry)
    requires InOrder(s, a, p, m, b, q, n) && IsPlainPin(a) && IsPlainPin(b) && AreApart(a.name, b.name)
    ensures PinTwo(s, a, b) == PinTwo(s, b, a) == IfNoneFloats(BothPinned(s, a, p, m, b, q, n))
  {
    hide IsPlainPin, AreApart, PinOne, InOrder, BothPinned, IfNoneFloats;
    PinsCommute(s, a, p, m, b, q, n);
  }

  /**
   * The order of two pins matters exactly when the entries overlap: if pinning
   * the later entry first succeeds, the other order ends alike if and only if
   * the first entry is over before the second begins.
   */
  lemma OrderMattersIffOverlap(s: string, a: Pin, p: nat, m: Entry, b: Pin, q: nat, n: Entry)
    requires IsPlainPin(a) && IsPlainPin(b) && AreApart(a.name, b.name)
    requires IsFirst(s, a, p, m) && IsFirst(s, b, q, n) && p < q && PinTwo(s, b, a).PinnedText?
    ensures PinTwo(s, a, b) == PinTwo(s, b, a) <==> p + m.newTag.end <= q
  {
    hide IsEntry, IsPlainPin, AreApart, PinOne, PinTwo, BothPinned;
    if p + m.newTag.end <= q {
      TwoPinsInOrder(s, a, p, m, b, q, n);
    } else {
      OverlapIsOneDash(s, a, p, m, b, q, n);
      OverlapFloats(s, a, p, m, b, q, n);
    }
  }

  /**
   * `pinKustomizationImages` does not depend on the order of its two pins: when
   * the entries do not overlap, both orders end alike, and a success is the
   * source with exactly those two entries pinned and no floating tag left
   * anywhere, a second entry for an image included.
   */
  lemma PinningIsOrderFree(source: string, release: ReleaseImages, p: nat, m: Entry, q: nat, n: Entry)
    requires IsDigestImage(release.appImage, APP_IMAGE_REPOSITORY)
    requires IsDigestImage(release.workerImage, WORKER_IMAGE_REPOSITORY)
    ensures
      var app, worker := AppPin(release), WorkerPin(release);
      var r := PinKustomizationImages(source, release);
      && (InOrder(source, app, p, m, worker, q, n) ==>
            r == PinTwo(source, worker, app) == IfNoneFloats(BothPinned(source, app, p, m, worker, q, n)))
      && (InOrder(source, worker, q, n, app, p, m) ==>
            r == PinTwo(source, worker, app) == IfNoneFloats(BothPinned(source, worker, q, n, app, p, m)))
      && (r.PinnedText? ==> !HasFloatingTag(r.text))
  {
    ReleasePinsAreApart(release);
    var app, worker := AppPin(release), WorkerPin(release);
    hide IsDigestImage, AppPin, WorkerPin, IsPlainPin, AreApart, PinOne, InOrder, BothPinned, HasFloatingTag;
    if InOrder(source, app, p, m, worker, q, n) {
      TwoPinsInOrder(source, app, p, m, worker, q, n);
    }
    if InOrder(source, worker, q, n, app, p, m) {
      TwoPinsInOrder(source, worker, q, n, app, p, m);
    }
  }

  // ---- What the function answers -----------------------------------------------------------

  /** `newTag` at the start of a word, white space, a colon. */
  predicate FloatsAt(s: string, i: nat, colon: nat) {
    && OccursAt(s, "newTag", i) && (i > 0 ==> !IsWord(s[i - 1]))
    && AreSpaces(s, i + 6, colon) && colon < |s| && s[colon] == ':'
  }

  lemma FloatingExactly(s: string)
    ensures HasFloatingTag(s) <==> exists i: nat, colon: nat :: FloatsAt(s, i, colon)
  {
    assert !IsSpace(':');
    hide IsSpace, IsWord;
    if HasFloatingTag(s) {
      var i: nat :| IsFloating(s, i);
      SpacesSkipped(s, i + 6);
      assert FloatsAt(s, i, SkipSpaces(s, i + 6));
    }
    if i: nat, colon: nat :| FloatsAt(s, i, colon) {
      SpacesEndAt(s, i + 6, colon);
      assert IsFloating(s, i);
    }
  }

  /** An entry for the image stands at `p`: `- name:` and its name, then its two fields. */
  ghost predicate IsEntryFor(s: string, name: string, p: nat, m: Entry) {
    p <= |s| && IsEntry(s[p..], "- name: " + name, m)
  }

  /** The first entry for the image. */
  ghost predicate IsFirstFor(s: string, name: string, p: nat, m: Entry) {
    IsEntryFor(s, name, p, m) && forall x: nat, n :: x < p ==> !IsEntryFor(s, name, x, n)
  }

  ghost predicate HasNoEntry(s: string, name: string) {
    forall p: nat, m :: !IsEntryFor(s, name, p, m)
  }

  /** The first entry for the image, with its repository and digest in place of what it named. */
  ghost predicate IsPinnedInto(s: string, t: string, name: string, repository: string, digest: string) {
    exists p: nat, m: Entry :: IsPinnedAt(s, t, name, repository, digest, p, m)
  }

  ghost predicate IsPinnedAt(
    s: string, t: string, name: string, repository: string, digest: string, p: nat, m: Entry)
  {
    && IsFirstFor(s, name, p, m)
    && var (key, eol, line) := (m.newName.key, m.newName.end, m.indent2);
    && m.indent <= key <= eol <= line <= m.newTag.end <= |s| - p
    && t == s[..p + key]
          + ("newName: " + repository + s[p + eol..p + line] + s[p + m.indent..p + key] + "digest: " + digest)
          + s[p + m.newTag.end..]
  }

  lemma {:induction false} NoneIsFound(s: string, pin: Pin, from: nat, p: nat, m: Entry)
    requires Find(s, pin, from) == None && from <= p
    ensures !EntryAt(s, pin, p, m)
    decreases |s| + 1 - from
  {
    hide IsEntry, EntryOf;
    if from <= |s| {
      if from < p {
        NoneIsFound(s, pin, from + 1, p, m);
      } else {
        EntryExactly(s[p..], Head(pin), m);
      }
    }
  }

  lemma OnlyFirst(s: string, pin: Pin, p: nat, m: Entry, q: nat, n: Entry)
    requires IsFirst(s, pin, p, m) && IsFirst(s, pin, q, n)
    ensures p == q && m == n
  {
    hide IsEntry, EntryOf;
    EntryExactly(s[p..], Head(pin), m);
    EntryExactly(s[p..], Head(pin), n);
  }

  lemma FirstIsFirst(s: string, pin: Pin, p: nat, m: Entry)
    ensures IsFirst(s, pin, p, m) <==> IsFirstFor(s, pin.name, p, m)
  {
    hide IsEntry;
    assert forall x: nat, n :: EntryAt(s, pin, x, n) <==> IsEntryFor(s, pin.name, x, n);
  }

  lemma PinnedAtIs(s: string, pin: Pin, t: string, p: nat, m: Entry)
    requires IsFirst(s, pin, p, m)
    ensures IsPinnedAt(s, t, pin.name, pin.repository, pin.digest, p, m) <==> t == Pinned(s, pin, p, m)
  {
    FirstIsFirst(s, pin, p, m);
    hide IsEntry, IsFirstFor;
    EntryFits(s[p..], Head(pin), m);
    var u := s[p..];
    assert u[m.newName.end..m.indent2] == s[p + m.newName.end..p + m.indent2];
    assert u[m.indent..m.newName.key] == s[p + m.indent..p + m.newName.key];
  }

  /** One pin replaces the first entry for its image, and finds none exactly when there is none. */
  lemma PinOneExactly(s: string, pin: Pin, t: string)
    ensures PinOne(s, pin) == Some(t) <==> IsPinnedInto(s, t, pin.name, pin.repository, pin.digest)
    ensures PinOne(s, pin) == None <==> HasNoEntry(s, pin.name)
  {
    hide IsEntry, EntryOf, Pinned, IsPinnedAt;
    assert forall p: nat, m :: EntryAt(s, pin, p, m) <==> IsEntryFor(s, pin.name, p, m);
    match Find(s, pin, 0)
    case None =>
      forall p: nat, m
        ensures !EntryAt(s, pin, p, m)
      {
        NoneIsFound(s, pin, 0, p, m);
      }
      forall p: nat, m
        ensures !IsPinnedAt(s, t, pin.name, pin.repository, pin.digest, p, m)
      {
        PinnedNeedsEntry(s, t, pin, p, m);
      }
    case Some(found) =>
      var (p, m) := found;
      FindFinds(s, pin, 0);
      PinnedAtIs(s, pin, t, p, m);
      forall q: nat, n | IsPinnedAt(s, t, pin.name, pin.repository, pin.digest, q, n)
        ensures q == p && n == m
      {
        PinnedNeedsEntry(s, t, pin, q, n);
        OnlyFirst(s, pin, p, m, q, n);
      }
  }

  lemma PinnedNeedsEntry(s: string, t: string, pin: Pin, p: nat, m: Entry)
    ensures IsPinnedAt(s, t, pin.name, pin.repository, pin.digest, p, m) ==> IsFirst(s, pin, p, m)
  {
    FirstIsFirst(s, pin, p, m);
    hide IsFirst, IsFirstFor;
  }

  /**
   * What `pinKustomizationImages` answers, case by case: it refuses images that
   * are not pinned to their repositories, then a source without an entry for
   * the app, or without one for the worker once the app's is pinned, then a
   * result in which a tag still floats; any other result is the source with the
   * first entry for each image pinned, the app's first.
   */
  lemma PinsExactly(source: string, release: ReleaseImages, text: string)
    ensures
      var r := PinKustomizationImages(source, release);
      var registry := "959038055523" + ".dkr.ecr.ap-southeast-2" + ".amazonaws.com";
      var app, worker := registry + "/blakpath/app", registry + "/blakpath/worker";
      if !IsPinned(release.appImage, app) || !IsPinned(release.workerImage, worker) then r == NotADigest
      else
        && |app| + 1 <= |release.appImage| && |worker| + 1 <= |release.workerImage|
        && var appDigest, workerDigest := release.appImage[|app| + 1..], release.workerImage[|worker| + 1..];
        && (r == PinnedText(text) <==>
              && (exists once :: IsPinnedInto(source, once, "blakpath/app", app, appDigest)
                    && IsPinnedInto(once, text, "blakpath/worker", worker, workerDigest))
              && forall i: nat, colon: nat :: !FloatsAt(text, i, colon))
        && (r == MissingImage <==>
              || HasNoEntry(source, "blakpath/app")
              || exists once ::
                   IsPinnedInto(source, once, "blakpath/app", app, appDigest) && HasNoEntry(once, "blakpath/worker"))
        && r != NotADigest
  {
    PinnedExactly(release.appImage, APP_IMAGE_REPOSITORY);
    PinnedExactly(release.workerImage, WORKER_IMAGE_REPOSITORY);
    hide IsPinned, IsEntry, IsPinnedInto, HasFloatingTag, PinOne, HasNoEntry;
    if IsDigestImage(release.appImage, APP_IMAGE_REPOSITORY)
       && IsDigestImage(release.workerImage, WORKER_IMAGE_REPOSITORY) {
      var app, worker := AppPin(release), WorkerPin(release);
      FloatingExactly(text);
      PinOneExactly(source, app, "");
      forall once
        ensures IsPinnedInto(source, once, app.name, app.repository, app.digest) <==> PinOne(source, app) == Some(once)
        ensures IsPinnedInto(once, text, worker.name, worker.repository, worker.digest)
          <==> PinOne(once, worker) == Some(text)
        ensures HasNoEntry(once, worker.name) <==> PinOne(once, worker) == None
      {
        PinOneExactly(source, app, once);
        PinOneExactly(once, worker, text);
      }
    }
  }
}
