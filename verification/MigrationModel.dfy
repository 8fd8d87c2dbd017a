/**
 * One migration session at a time: the durable tables, the points at which a
 * session can die, and the invariant every schedule of deaths and restarts keeps.
 *
 * A step is one committed effect: a read, one statement run outside a
 * transaction, one transaction, or the release of the lock. A session can also
 * die inside a statement that runs outside a transaction and leave it half done.
 */
module MigrationModel {
  import opened Common
  import opened MigrationText
  import Lexemes

  /** A statement with the answer of `statementRunsOutsideTransaction`, a pure test of its text. */
  datatype Statement = Statement(text: string, outside: bool)

  datatype Migration = Migration(tag: string, hash: string, folderMillis: int, statements: seq<Statement>)

  function Marked(texts: seq<string>): (r: seq<Statement>)
    ensures |r| == |texts| && forall i :: 0 <= i < |r| ==> r[i].text == texts[i]
  {
    seq(|texts|, i requires 0 <= i < |texts| => Statement(texts[i], RunsOutsideTransaction(texts[i])))
  }

  /** A journal entry with the statements of its file. */
  function Load(tag: string, hash: string, folderMillis: int, sql: string): Migration {
    Migration(tag, hash, folderMillis, Marked(SplitMigrationStatements(sql)))
  }

  /**
   * A file written as statements joined by the breakpoint is loaded as exactly
   * those statements, each to be run outside a transaction when it has a mark
   * line or its code says CONCURRENTLY or VALIDATE CONSTRAINT, and not otherwise.
   */
  lemma LoadedAsWritten(tag: string, hash: string, folderMillis: int, texts: seq<string>)
    requires forall s :: s in texts ==> IsStatement(s)
    ensures
      var loaded := Load(tag, hash, folderMillis, Join(texts, "--> statement-breakpoint"));
      && loaded.tag == tag && loaded.hash == hash && loaded.folderMillis == folderMillis
      && |loaded.statements| == |texts|
      && forall i :: 0 <= i < |texts| ==>
        && loaded.statements[i].text == texts[i]
        && (loaded.statements[i].outside <==>
              || HasMarkLine(texts[i])
              || Lexemes.HasRow(Lexemes.CodeLexemes(texts[i]), ["CONCURRENTLY"])
              || Lexemes.HasRow(Lexemes.CodeLexemes(texts[i]), ["VALIDATE", "CONSTRAINT"]))
  {
    hide RunsOutsideTransaction, SplitMigrationStatements, Join, IsStatement, HasMarkLine, Lexemes.HasRow,
         Lexemes.CodeLexemes;
    StatementsRoundTrip(texts);
    forall i | 0 <= i < |texts| {
      Lexemes.RunsOutsideExactly(texts[i]);
    }
  }

  type Journal = seq<Migration>

  /** A row of `__drizzle_migrations`. */
  datatype Row = Row(hash: string, createdAt: int)

  /**
   * The durable state. `log` is the history of statement executions, each given
   * by its position in the flattened journal; `torn` says which of them, by
   * their place in the log, were left half done; `progress` is
   * `__drizzle_migration_progress`.
   */
  datatype Db = Db(log: seq<nat>, torn: set<nat>, recorded: seq<Row>, progress: set<(string, nat)>)

  const FRESH_DB := Db([], {}, [], {})

  /** Every statement of the journal, in order. */
  function Flat(j: Journal): seq<Statement> {
    if j == [] then [] else Flat(j[..|j| - 1]) + j[|j| - 1].statements
  }

  /** Position in the flattened journal of the first statement of migration `m`. */
  function Offset(j: Journal, m: nat): nat
    requires m <= |j|
  {
    |Flat(j[..m])|
  }

  lemma {:induction false} FlatAt(j: Journal, m: nat)
    requires m < |j|
    ensures Offset(j, m) + |j[m].statements| == Offset(j, m + 1) <= |Flat(j)|
    ensures forall i {:trigger j[m].statements[i]} :: 0 <= i < |j[m].statements| ==>
      Flat(j)[Offset(j, m) + i] == j[m].statements[i]
    decreases |j|
  {
    assert j[..m + 1][..m] == j[..m];
    if m + 1 < |j| {
      var front := j[..|j| - 1];
      FlatAt(front, m);
      assert front[..m] == j[..m] && front[..m + 1] == j[..m + 1];
    } else {
      assert j[..m + 1] == j;
    }
  }

  lemma OffsetEnds(j: Journal)
    ensures Offset(j, 0) == 0 && Offset(j, |j|) == |Flat(j)|
  {
    assert j[..0] == [] && j[..|j|] == j;
  }

  lemma {:induction false} OffsetMonotone(j: Journal, a: nat, b: nat)
    requires a <= b <= |j|
    ensures Offset(j, a) <= Offset(j, b)
    decreases b - a
  {
    if a < b {
      FlatAt(j, a);
      OffsetMonotone(j, a + 1, b);
    }
  }

  ghost predicate StrictlyIncreasing(j: Journal) {
    forall a, b :: 0 <= a < b < |j| ==> j[a].folderMillis < j[b].folderMillis
  }

  // ---- What a session does --------------------------------------------------

  /** `select created_at ... order by created_at desc limit 1` */
  function LatestAt(rows: seq<Row>): Option<int> {
    if rows == [] then None
    else
      var last := rows[|rows| - 1].createdAt;
      match LatestAt(rows[..|rows| - 1])
      case None => Some(last)
      case Some(before) => Some(if before < last then last else before)
  }

  function CompletedStatements(db: Db, hash: string): set<nat> {
    set row | row in db.progress && row.0 == hash :: row.1
  }

  predicate Skips(lastAt: Option<int>, migration: Migration) {
    lastAt.Some? && !(lastAt.value < migration.folderMillis)
  }

  /** Where the run of transactional statements starting at `from` stops. */
  function BatchEnd(statements: seq<Statement>, from: nat): (end: nat)
    requires from <= |statements|
    ensures from <= end <= |statements|
    ensures from < |statements| && !statements[from].outside ==> from < end
    ensures forall i :: from <= i < end ==> !statements[i].outside
    ensures end < |statements| ==> statements[end].outside
    decreases |statements| - from
  {
    if from < |statements| && !statements[from].outside
    then BatchEnd(statements, from + 1) else from
  }

  ghost predicate Ascends(cursors: seq<nat>) {
    forall i, k :: 0 <= i < k < |cursors| ==> cursors[i] < cursors[k]
  }

  /** The cursors a batch still has to run, in order. */
  function Pending(from: nat, end: nat, done: set<nat>): (cursors: seq<nat>)
    requires from <= end
    ensures (forall c :: from <= c < end ==> c !in done) ==> cursors == seq(end - from, i => from + i)
    ensures forall c :: c in cursors <==> from <= c < end && c !in done
    ensures Ascends(cursors)
    decreases end - from
  {
    if from == end then []
    else if from in done then Pending(from + 1, end, done)
    else
      var rest := Pending(from + 1, end, done);
      assert forall i :: 0 <= i < |rest| ==> rest[i] in rest;
      [from] + rest
  }

  function Positions(base: nat, cursors: seq<nat>): (r: seq<nat>)
    ensures |r| == |cursors| && forall i :: 0 <= i < |r| ==> r[i] == base + cursors[i]
  {
    seq(|cursors|, i requires 0 <= i < |cursors| => base + cursors[i])
  }

  function ProgressRows(hash: string, cursors: seq<nat>): set<(string, nat)> {
    set c | c in cursors :: (hash, c)
  }

  /** Where a session that holds the lock stands, with the values it has read. */
  datatype Pc =
    | Watermark
    | Scan(lastAt: Option<int>, next: nat)
    | Apply(lastAt: Option<int>, next: nat, done: set<nat>, index: nat)
    | Mark(lastAt: Option<int>, next: nat, done: set<nat>, index: nat)
    | Unlock

  predicate PcFits(j: Journal, len: nat, pc: Pc) {
    len <= |j| &&
    match pc
    case Scan(_, m) => m <= len
    case Apply(_, m, _, index) => m < len && index <= |j[m].statements|
    case Mark(_, m, _, index) => m < len && index < |j[m].statements|
    case _ => true
  }

  /**
   * The next effect of a session whose copy of the journal is `j[..len]`:
   * releases keep or append to the journal, so every copy is such a prefix.
   */
  function Perform(j: Journal, len: nat, pc: Pc, db: Db): (r: (Pc, Db))
    requires PcFits(j, len, pc)
    ensures PcFits(j, len, r.0)
  {
    match pc
    case Watermark => (Scan(LatestAt(db.recorded), 0), db)
    case Scan(lastAt, m) =>
      if m == len then (Unlock, db)
      else if Skips(lastAt, j[m]) then (Scan(lastAt, m + 1), db)
      else (Apply(lastAt, m, CompletedStatements(db, j[m].hash), 0), db)
    case Apply(lastAt, m, done, index) =>
      var statements := j[m].statements;
      if index == |statements| then (Scan(lastAt, m + 1), RecordMigration(db, j[m]))
      else if index in done then (Apply(lastAt, m, done, index + 1), db)
      else if statements[index].outside then
        (Mark(lastAt, m, done, index), db.(log := db.log + [Offset(j, m) + index]))
      else
        var end := BatchEnd(statements, index);
        (Apply(lastAt, m, done, end), CommitBatch(j, m, Pending(index, end, done), db))
    case Mark(lastAt, m, done, index) =>
      (Apply(lastAt, m, done, index + 1), InsertProgress(db, j[m].hash, index))
    case Unlock => (Unlock, db)
  }

  /** The session is about to run a statement outside a transaction. */
  predicate AtOutside(j: Journal, len: nat, pc: Pc)
    requires PcFits(j, len, pc)
  {
    && pc.Apply? && pc.index < |j[pc.next].statements| && pc.index !in pc.done
    && j[pc.next].statements[pc.index].outside
  }

  /** What a session leaves that dies inside its next statement: half an effect, if that one has no transaction. */
  function Broken(j: Journal, len: nat, pc: Pc, db: Db): Db
    requires PcFits(j, len, pc)
  {
    if AtOutside(j, len, pc) then HalfDone(db, Offset(j, pc.next) + pc.index) else db
  }

  function HalfDone(db: Db, position: nat): Db {
    db.(log := db.log + [position], torn := db.torn + {|db.log|})
  }

  function InsertProgress(db: Db, hash: string, index: nat): Db {
    db.(progress := db.progress + {(hash, index)})
  }

  /** One transaction: each pending statement and its progress row, all or nothing. */
  function CommitBatch(j: Journal, m: nat, cursors: seq<nat>, db: Db): Db
    requires m < |j|
  {
    db.(log := db.log + Positions(Offset(j, m), cursors),
        progress := db.progress + ProgressRows(j[m].hash, cursors))
  }

  /** One transaction: record the migration and delete its progress rows. */
  function RecordMigration(db: Db, migration: Migration): Db {
    db.(recorded := db.recorded + [Row(migration.hash, migration.folderMillis)],
        progress := set row | row in db.progress && row.0 != migration.hash)
  }

  // ---- One session at a time --------------------------------------------------

  datatype Session = Session(len: nat, pc: Pc)

  datatype Serial = Serial(db: Db, session: Option<Session>, crashes: nat)

  /** A crash comes between two effects, a tear inside one. */
  datatype Action = Begin(len: nat) | Advance | Crash | Tear

  predicate Fits(j: Journal, s: Serial) {
    s.session.Some? ==> PcFits(j, s.session.value.len, s.session.value.pc)
  }

  function Step(j: Journal, s: Serial, a: Action): (s': Serial)
    requires Fits(j, s)
    ensures Fits(j, s')
  {
    match (a, s.session)
    case (Begin(len), None) =>
      if len <= |j| then s.(session := Some(Session(len, Watermark))) else s
    case (Advance, Some(Session(len, pc))) =>
      if pc.Unlock? then s.(session := None)
      else
        var (pc', db') := Perform(j, len, pc, s.db);
        s.(db := db', session := Some(Session(len, pc')))
    case (Crash, Some(_)) => s.(session := None, crashes := s.crashes + 1)
    case (Tear, Some(Session(len, pc))) => Serial(Broken(j, len, pc, s.db), None, s.crashes + 1)
    case _ => s
  }

  /** The state after a whole schedule, from an empty database. */
  function Run(j: Journal, schedule: seq<Action>): (s: Serial)
    ensures Fits(j, s)
  {
    if schedule == [] then Serial(FRESH_DB, None, 0)
    else Step(j, Run(j, schedule[..|schedule| - 1]), schedule[|schedule| - 1])
  }

  // ---- The invariant ------------------------------------------------------------

  /** One more than the last position executed. */
  function Top(log: seq<nat>): nat {
    if log == [] then 0 else log[|log| - 1] + 1
  }

  predicate OutsideAt(j: Journal, p: nat) {
    p < |Flat(j)| && Flat(j)[p].outside
  }

  /** Execution `i` is of the statement after execution `i - 1`, or repeats it if it may. */
  ghost predicate Climbs(j: Journal, log: seq<nat>, i: nat)
    requires 0 < i < |log|
  {
    log[i] == log[i - 1] + 1 || (log[i] == log[i - 1] && OutsideAt(j, log[i]))
  }

  /** Executions go up the journal one by one; only an outside statement repeats, in place. */
  ghost predicate Staircase(j: Journal, log: seq<nat>) {
    && Top(log) <= |Flat(j)|
    && (log != [] ==> log[0] == 0)
    && forall i: nat :: 0 < i < |log| ==> Climbs(j, log, i)
  }

  ghost predicate EndsTorn(db: Db) {
    db.log != [] && |db.log| - 1 in db.torn
  }

  /** A half-done execution is of an outside statement, followed by that statement again or by nothing yet. */
  ghost predicate TornInPlace(j: Journal, db: Db) {
    forall i: nat :: i in db.torn ==>
      i < |db.log| && OutsideAt(j, db.log[i]) && (i + 1 < |db.log| ==> db.log[i + 1] == db.log[i])
  }

  /** The first `|db.recorded|` migrations of the journal are the recorded ones. */
  ghost predicate RecordedPrefix(j: Journal, db: Db) {
    |db.recorded| <= |j| &&
    forall i :: 0 <= i < |db.recorded| ==> db.recorded[i] == Row(j[i].hash, j[i].folderMillis)
  }

  /** Progress rows are exactly statements `0..k` of the first unrecorded migration. */
  ghost predicate ProgressPrefix(j: Journal, db: Db, k: nat) {
    var r := |db.recorded|;
    && r <= |j|
    && (if r < |j| then k <= |j[r].statements| else k == 0)
    && forall row :: row in db.progress <==> r < |j| && row.0 == j[r].hash && row.1 < k
  }

  /** What the invariant knows beyond the state itself. */
  datatype Ghost = Ghost(
    k: nat,       // statements of the current migration that are marked done
    limbo: bool,  // statement k has run outside a transaction, or broken off, and is not yet marked
    seen: nat,    // migrations recorded when the session read the watermark
    d: nat)       // statements that were marked when the session read progress

  ghost predicate DbGood(j: Journal, db: Db, g: Ghost) {
    var r := |db.recorded|;
    && RecordedPrefix(j, db)
    && ProgressPrefix(j, db, g.k)
    && Staircase(j, db.log)
    && TornInPlace(j, db) && (EndsTorn(db) ==> g.limbo)
    && Top(db.log) == Offset(j, r) + g.k + (if g.limbo then 1 else 0)
    && (g.limbo ==> r < |j| && g.k < |j[r].statements| && j[r].statements[g.k].outside)
  }

  ghost predicate Saw(j: Journal, lastAt: Option<int>, seen: nat) {
    seen <= |j| && lastAt == if seen == 0 then None else Some(j[seen - 1].folderMillis)
  }

  ghost predicate IsPrefixSet(done: set<nat>, d: nat) {
    forall i: nat :: i in done <==> i < d
  }

  function Max(a: nat, b: nat): nat {
    if a < b then b else a
  }

  ghost predicate PcGood(j: Journal, len: nat, pc: Pc, db: Db, g: Ghost) {
    var r := |db.recorded|;
    PcFits(j, len, pc) &&
    match pc
    case Watermark => true
    case Scan(lastAt, m) => Saw(j, lastAt, g.seen) && r == Max(m, g.seen)
    case Apply(lastAt, m, done, index) =>
      Saw(j, lastAt, g.seen) && g.seen <= m == r && IsPrefixSet(done, g.d) && g.d <= g.k == Max(index, g.d)
    case Mark(lastAt, m, done, index) =>
      Saw(j, lastAt, g.seen) && g.seen <= m == r && IsPrefixSet(done, g.d) && g.d <= g.k == index && g.limbo
      && !EndsTorn(db)
    case Unlock => len <= r
  }

  /** Repeats so far, plus the one a statement in limbo can still cause, against crashes. */
  ghost predicate CrashBudget(s: Serial, limbo: bool) {
    var marking := s.session.Some? && s.session.value.pc.Mark?;
    |s.db.log| + (if limbo && !marking then 1 else 0) <= Top(s.db.log) + s.crashes
  }

  ghost predicate Good(j: Journal, s: Serial, g: Ghost) {
    && DbGood(j, s.db, g)
    && (s.session.Some? ==> PcGood(j, s.session.value.len, s.session.value.pc, s.db, g))
    && CrashBudget(s, g.limbo)
  }

  lemma {:induction false} LatestAtOfPrefix(j: Journal, rows: seq<Row>)
    requires StrictlyIncreasing(j) && |rows| <= |j|
    requires forall i :: 0 <= i < |rows| ==> rows[i] == Row(j[i].hash, j[i].folderMillis)
    ensures Saw(j, LatestAt(rows), |rows|)
  {
    if rows != [] {
      LatestAtOfPrefix(j, rows[..|rows| - 1]);
    }
  }

  /** Appending consecutive positions keeps the staircase. */
  lemma StaircaseExtends(j: Journal, log: seq<nat>, more: seq<nat>)
    requires Staircase(j, log)
    requires forall i :: 0 <= i < |more| ==> more[i] == Top(log) + i
    requires Top(log) + |more| <= |Flat(j)|
    ensures Staircase(j, log + more) && Top(log + more) == Top(log) + |more|
  {
    forall i: nat | 0 < i < |log + more|
      ensures Climbs(j, log + more, i)
    {
      assert i < |log| ==> Climbs(j, log, i);
    }
  }

  lemma StaircaseRepeats(j: Journal, log: seq<nat>)
    requires Staircase(j, log) && log != [] && OutsideAt(j, Top(log) - 1)
    ensures Staircase(j, log + [Top(log) - 1]) && Top(log + [Top(log) - 1]) == Top(log)
  {
    var log' := log + [Top(log) - 1];
    forall i: nat | 0 < i < |log'|
      ensures Climbs(j, log', i)
    {
      assert i < |log| ==> Climbs(j, log, i);
    }
  }

  lemma SkipsExactlySeen(j: Journal, lastAt: Option<int>, seen: nat, m: nat)
    requires StrictlyIncreasing(j) && Saw(j, lastAt, seen) && m < |j|
    ensures Skips(lastAt, j[m]) <==> m < seen
  {
  }

  lemma CompletedIsPrefix(j: Journal, db: Db, k: nat)
    requires ProgressPrefix(j, db, k) && |db.recorded| < |j|
    ensures IsPrefixSet(CompletedStatements(db, j[|db.recorded|].hash), k)
  {
    var hash := j[|db.recorded|].hash;
    forall i: nat
      ensures i in CompletedStatements(db, hash) <==> i < k
    {
      assert (hash, i) in db.progress <==> i < k;
    }
  }

  lemma RecordedIsPrefix(j: Journal, db: Db, g: Ghost)
    requires DbGood(j, db, g)
    ensures |db.recorded| <= |j| && ProgressPrefix(j, db, g.k)
    ensures forall i :: 0 <= i < |db.recorded| ==> db.recorded[i] == Row(j[i].hash, j[i].folderMillis)
    ensures forall seen, d :: DbGood(j, db, g.(seen := seen)) && DbGood(j, db, g.(d := d))
  {
    hide Staircase;
  }

  lemma KeepsScan(j: Journal, s: Serial, g: Ghost) returns (g': Ghost)
    requires StrictlyIncreasing(j) && Fits(j, s) && Good(j, s, g)
    requires s.session.Some? && (s.session.value.pc.Scan? || s.session.value.pc.Watermark?)
    ensures Good(j, Step(j, s, Advance), g')
  {
    hide DbGood, Staircase, Offset, CompletedStatements, LatestAt;
    g' := g;
    RecordedIsPrefix(j, s.db, g);
    match s.session.value.pc {
      case Watermark =>
        LatestAtOfPrefix(j, s.db.recorded);
        g' := g.(seen := |s.db.recorded|);
      case Scan(lastAt, m) =>
        if m < s.session.value.len {
          SkipsExactlySeen(j, lastAt, g.seen, m);
          if g.seen <= m {
            CompletedIsPrefix(j, s.db, g.k);
            g' := g.(d := g.k);
          }
        }
    }
  }

  lemma OutsideKeepsDb(j: Journal, db: Db, g: Ghost)
    requires DbGood(j, db, g)
    requires var r := |db.recorded|;
      r < |j| && g.k < |j[r].statements| && j[r].statements[g.k].outside
    ensures var p := Offset(j, |db.recorded|) + g.k; var db' := db.(log := db.log + [p]);
      DbGood(j, db', g.(limbo := true)) && Top(db'.log) == p + 1
  {
    var r := |db.recorded|;
    FlatAt(j, r);
    var p := Offset(j, r) + g.k;
    assert Flat(j)[p] == j[r].statements[g.k];
    hide Staircase, Flat;
    if g.limbo {
      StaircaseRepeats(j, db.log);
    } else {
      StaircaseExtends(j, db.log, [p]);
    }
  }

  /** Half an execution is one more in the history, of the statement that is not yet marked. */
  lemma KeepsTear(j: Journal, s: Serial, g: Ghost) returns (g': Ghost)
    requires Fits(j, s) && Good(j, s, g) && s.session.Some?
    ensures Good(j, Step(j, s, Tear), g')
  {
    g' := g;
    var Session(len, pc) := s.session.value;
    if AtOutside(j, len, pc) {
      HalfDoneKeepsDb(j, s.db, g);
      g' := g.(limbo := true);
    }
  }

  lemma HalfDoneKeepsDb(j: Journal, db: Db, g: Ghost)
    requires DbGood(j, db, g)
    requires var r := |db.recorded|;
      r < |j| && g.k < |j[r].statements| && j[r].statements[g.k].outside
    ensures var db' := HalfDone(db, Offset(j, |db.recorded|) + g.k);
      DbGood(j, db', g.(limbo := true)) && Top(db'.log) == Offset(j, |db.recorded|) + g.k + 1
  {
    hide Staircase;
    OutsideKeepsDb(j, db, g);
    var p := Offset(j, |db.recorded|) + g.k;
    FlatAt(j, |db.recorded|);
    assert Flat(j)[p] == j[|db.recorded|].statements[g.k];
    HalfDoneInPlace(j, db, p);
  }

  lemma HalfDoneInPlace(j: Journal, db: Db, p: nat)
    requires TornInPlace(j, db.(log := db.log + [p])) && OutsideAt(j, p)
    ensures TornInPlace(j, HalfDone(db, p))
  {
  }

  lemma KeepsOutside(j: Journal, s: Serial, g: Ghost) returns (g': Ghost)
    requires Fits(j, s) && Good(j, s, g)
    requires s.session.Some? && s.session.value.pc.Apply?
    requires var pc := s.session.value.pc;
      pc.index < |j[pc.next].statements| && pc.index !in pc.done &&
      j[pc.next].statements[pc.index].outside
    ensures Good(j, Step(j, s, Advance), g')
  {
    OutsideKeepsDb(j, s.db, g);
    g' := g.(limbo := true);
  }

  lemma BatchKeepsDb(j: Journal, db: Db, g: Ghost, end: nat, cursors: seq<nat>)
    requires DbGood(j, db, g) && !g.limbo
    requires |db.recorded| < |j| && g.k <= end <= |j[|db.recorded|].statements|
    requires cursors == seq(end - g.k, i => g.k + i)
    ensures var db' := CommitBatch(j, |db.recorded|, cursors, db);
      && DbGood(j, db', g.(k := end))
      && Top(db'.log) - Top(db.log) == |db'.log| - |db.log|
  {
    var r := |db.recorded|;
    FlatAt(j, r);
    StaircaseExtends(j, db.log, Positions(Offset(j, r), cursors));
    BatchProgress(j, db, g.k, end, cursors);
  }

  lemma KeepsBatch(j: Journal, s: Serial, g: Ghost) returns (g': Ghost)
    requires Fits(j, s) && Good(j, s, g)
    requires s.session.Some? && s.session.value.pc.Apply?
    requires var pc := s.session.value.pc;
      pc.index < |j[pc.next].statements| && pc.index !in pc.done &&
      !j[pc.next].statements[pc.index].outside
    ensures Good(j, Step(j, s, Advance), g')
  {
    var pc := s.session.value.pc;
    var end := BatchEnd(j[pc.next].statements, pc.index);
    assert forall c :: pc.index <= c < end ==> c !in pc.done;
    BatchKeepsDb(j, s.db, g, end, Pending(pc.index, end, pc.done));
    g' := g.(k := end);
  }

  lemma BatchProgress(j: Journal, db: Db, k: nat, end: nat, cursors: seq<nat>)
    requires |db.recorded| < |j| && ProgressPrefix(j, db, k) && k <= end <= |j[|db.recorded|].statements|
    requires cursors == seq(end - k, i => k + i)
    ensures ProgressPrefix(j, CommitBatch(j, |db.recorded|, cursors, db), end)
  {
    var db' := CommitBatch(j, |db.recorded|, cursors, db);
    var hash := j[|db.recorded|].hash;
    forall row
      ensures row in db'.progress <==> row.0 == hash && row.1 < end
    {
      if row.0 == hash && k <= row.1 < end {
        assert cursors[row.1 - k] == row.1;
      }
    }
  }

  lemma MarkKeepsDb(j: Journal, db: Db, g: Ghost)
    requires DbGood(j, db, g) && g.limbo && !EndsTorn(db)
    ensures DbGood(j, InsertProgress(db, j[|db.recorded|].hash, g.k), g.(k := g.k + 1, limbo := false))
  {
  }

  lemma RecordKeepsDb(j: Journal, db: Db, g: Ghost)
    requires DbGood(j, db, g) && |db.recorded| < |j| && g.k == |j[|db.recorded|].statements|
    ensures DbGood(j, RecordMigration(db, j[|db.recorded|]), g.(k := 0))
  {
    FlatAt(j, |db.recorded|);
  }

  lemma KeepsRest(j: Journal, s: Serial, g: Ghost) returns (g': Ghost)
    requires Fits(j, s) && Good(j, s, g)
    requires s.session.Some?
    requires var pc := s.session.value.pc;
      pc.Mark? || pc.Unlock? ||
      (pc.Apply? && (pc.index == |j[pc.next].statements| || pc.index in pc.done))
    ensures Good(j, Step(j, s, Advance), g')
  {
    g' := g;
    var pc := s.session.value.pc;
    if pc.Mark? {
      MarkKeepsDb(j, s.db, g);
      g' := g.(k := g.k + 1, limbo := false);
    } else if pc.Apply? && pc.index == |j[pc.next].statements| {
      RecordKeepsDb(j, s.db, g);
      g' := g.(k := 0);
    }
  }

  lemma Keeps(j: Journal, s: Serial, a: Action, g: Ghost) returns (g': Ghost)
    requires StrictlyIncreasing(j) && Fits(j, s) && Good(j, s, g)
    ensures Good(j, Step(j, s, a), g')
  {
    g' := g;
    if a.Tear? && s.session.Some? {
      g' := KeepsTear(j, s, g);
    } else if a.Advance? && s.session.Some? {
      var pc := s.session.value.pc;
      if pc.Scan? || pc.Watermark? {
        g' := KeepsScan(j, s, g);
      } else if pc.Mark? || pc.Unlock? || pc.index == |j[pc.next].statements| || pc.index in pc.done {
        g' := KeepsRest(j, s, g);
      } else if j[pc.next].statements[pc.index].outside {
        g' := KeepsOutside(j, s, g);
      } else {
        g' := KeepsBatch(j, s, g);
      }
    }
  }

  /** Every schedule of starts, steps and crashes keeps the invariant. */
  lemma {:induction false} RunIsGood(j: Journal, schedule: seq<Action>) returns (g: Ghost)
    requires StrictlyIncreasing(j)
    ensures Good(j, Run(j, schedule), g)
  {
    if schedule == [] {
      OffsetEnds(j);
      g := Ghost(0, false, 0, 0);
    } else {
      var before := schedule[..|schedule| - 1];
      g := RunIsGood(j, before);
      g := Keeps(j, Run(j, before), schedule[|schedule| - 1], g);
    }
  }
}
