/**
 * `runMigrations` and `applyMigration` as the loops they are, on tables that
 * are updated in place, refined against the step model: whatever effect the
 * connection dies on, the tables are those of some number of model steps.
 */
module MigrationRunner {
  import opened Common
  import opened MigrationModel
  import opened MigrationText

  const MAX_LOCK_TIMEOUT_MS := 4_000
  const PROGRESS_TABLE := "__drizzle_migration_progress"

  datatype Outcome = Completed | Died | AlreadyRunning | BadLockTimeout | UnsafeIdentifier

  /** One effect: it is answered while the connection lives. */
  predicate IsOneEffect(before: nat, after: nat, alive: bool) {
    (alive <==> before > 0) && after == if alive then before - 1 else 0
  }

  /** The tables, what exists, the session's settings and the lock, seen from one connection. */
  class Database {
    var log: seq<nat>
    var torn: set<nat>
    var recorded: seq<Row>
    var progress: set<(string, nat)>
    var objects: set<string>
    var settings: map<string, int>
    var lockTaken: bool
    /** How many more effects the connection lives to see answered. */
    var lives: nat
    /** Whether a statement without a transaction is left half done if the connection dies in it. */
    const breaks: bool

    ghost function Value(): Db
      reads this
    {
      Db(log, torn, recorded, progress)
    }

    /** One round trip: false when the connection has died, and then nothing has happened. */
    method RoundTrip() returns (alive: bool)
      modifies this`lives
      ensures IsOneEffect(old(lives), lives, alive)
    {
      alive := lives > 0;
      if alive {
        lives := lives - 1;
      }
    }

    method TryLock() returns (alive: bool, locked: bool)
      modifies this`lives, this`lockTaken
      ensures locked ==> alive && !old(lockTaken)
      ensures alive && !locked ==> old(lockTaken)
      ensures lockTaken == (old(lockTaken) || locked)
      ensures IsOneEffect(old(lives), lives, alive)
    {
      locked := false;
      alive := RoundTrip();
      if alive && !lockTaken {
        lockTaken, locked := true, true;
      }
    }

    /** `unsafe` outside a transaction: the statement commits on its own, or breaks off. */
    method Execute(position: nat) returns (alive: bool)
      modifies this`lives, this`log, this`torn
      ensures Value() == if alive then old(Value()).(log := old(log) + [position])
                         else if breaks then HalfDone(old(Value()), position) else old(Value())
      ensures IsOneEffect(old(lives), lives, alive)
    {
      alive := RoundTrip();
      if alive || breaks {
        torn := if alive then torn else torn + {|log|};
        log := log + [position];
      }
    }

    /** `SET lock_timeout = ...` and its like. */
    method Set(setting: string, ms: int) returns (alive: bool)
      modifies this`lives, this`settings
      ensures settings == if alive then old(settings)[setting := ms] else old(settings)
      ensures IsOneEffect(old(lives), lives, alive)
    {
      alive := RoundTrip();
      if alive {
        settings := settings[setting := ms];
      }
    }

    /** `CREATE ... IF NOT EXISTS` */
    method CreateIfMissing(name: string) returns (alive: bool)
      modifies this`lives, this`objects
      ensures objects == if alive then old(objects) + {name} else old(objects)
      ensures IsOneEffect(old(lives), lives, alive)
    {
      alive := RoundTrip();
      if alive {
        objects := objects + {name};
      }
    }

    /** A transaction that runs `cursors` of migration `m` and marks each of them. */
    method CommitStatements(j: Journal, m: nat, cursors: seq<nat>) returns (alive: bool)
      requires m < |j|
      modifies this`lives, this`log, this`progress
      ensures Value() == if alive then CommitBatch(j, m, cursors, old(Value())) else old(Value())
      ensures IsOneEffect(old(lives), lives, alive)
    {
      alive := RoundTrip();
      if alive {
        log := log + Positions(Offset(j, m), cursors);
        progress := progress + ProgressRows(j[m].hash, cursors);
      }
    }

    method CommitProgress(hash: string, index: nat) returns (alive: bool)
      modifies this`lives, this`progress
      ensures Value() == if alive then InsertProgress(old(Value()), hash, index) else old(Value())
      ensures IsOneEffect(old(lives), lives, alive)
    {
      alive := RoundTrip();
      if alive {
        progress := progress + {(hash, index)};
      }
    }

    method CommitRecord(migration: Migration) returns (alive: bool)
      modifies this`lives, this`recorded, this`progress
      ensures Value() == if alive then RecordMigration(old(Value()), migration) else old(Value())
      ensures IsOneEffect(old(lives), lives, alive)
    {
      alive := RoundTrip();
      if alive {
        recorded := recorded + [Row(migration.hash, migration.folderMillis)];
        progress := set row | row in progress && row.0 != migration.hash;
      }
    }

    /** `completedStatements`: the rows of one hash, gathered into a set. */
    method ReadCompleted(hash: string) returns (alive: bool, completed: set<nat>)
      modifies this`lives
      ensures alive ==> completed == CompletedStatements(Value(), hash)
      ensures IsOneEffect(old(lives), lives, alive)
    {
      completed := {};
      alive := RoundTrip();
      if alive {
        var rows := set row | row in progress && row.0 == hash;
        while rows != {}
          invariant forall row :: row in rows ==> row in progress && row.0 == hash
          invariant forall row :: row in progress && row.0 == hash && row !in rows ==> row.1 in completed
          invariant forall i :: i in completed ==> (hash, i) in progress
          decreases |rows|
        {
          var row :| row in rows;
          completed := completed + {row.1};
          rows := rows - {row};
        }
        AllRowsRead(Value(), hash, completed);
      }
    }
  }

  lemma AllRowsRead(db: Db, hash: string, completed: set<nat>)
    requires forall row :: row in db.progress && row.0 == hash ==> row.1 in completed
    requires forall i :: i in completed ==> (hash, i) in db.progress
    ensures completed == CompletedStatements(db, hash)
  {
    forall i: nat
      ensures i in completed <==> i in CompletedStatements(db, hash)
    {
      assert i in completed ==> (hash, i).1 in CompletedStatements(db, hash);
    }
  }

  function AdvanceN(j: Journal, s: Serial, n: nat): (s': Serial)
    requires Fits(j, s)
    ensures Fits(j, s')
  {
    if n == 0 then s else Step(j, AdvanceN(j, s, n - 1), Advance)
  }

  /** The model state of a session of the whole journal that has just taken the lock. */
  ghost function Started(j: Journal, db: Db): (s: Serial)
    ensures Fits(j, s)
  {
    Serial(db, Some(Session(|j|, Watermark)), 0)
  }

  /** After `n` model steps the tables are those of `db` and the session is at `pc`. */
  ghost predicate AtStep(j: Journal, start: Serial, n: nat, db: Db, pc: Pc)
    requires Fits(j, start)
  {
    var s := AdvanceN(j, start, n);
    s.db == db && s.session == Some(Session(|j|, pc))
  }

  /** The tables of `n` model steps, or of a session that died inside its next statement after them. */
  ghost predicate LeftBy(j: Journal, start: Serial, n: nat, db: Db)
    requires Fits(j, start)
  {
    var s := AdvanceN(j, start, n);
    db == s.db || db == Step(j, s, Tear).db
  }

  lemma OneMoreStep(j: Journal, start: Serial, n: nat, db: Db, pc: Pc)
    requires Fits(j, start) && AtStep(j, start, n, db, pc) && !pc.Unlock?
    ensures PcFits(j, |j|, pc) && LeftBy(j, start, n, db)
    ensures var (pc', db') := Perform(j, |j|, pc, db); AtStep(j, start, n + 1, db', pc')
  {
  }

  lemma PendingStep(from: nat, end: nat, done: set<nat>)
    requires from < end
    ensures Pending(from, end, done) == (if from in done then [] else [from]) + Pending(from + 1, end, done)
  {
    hide Ascends;
  }

  lemma {:induction false} PendingGrows(from: nat, end: nat, done: set<nat>)
    requires from <= end
    ensures Pending(from, end + 1, done) == Pending(from, end, done) + (if end in done then [] else [end])
    decreases end - from
  {
    hide Ascends, Pending;
    PendingStep(from, end + 1, done);
    if from < end {
      PendingStep(from, end, done);
      PendingGrows(from + 1, end, done);
    } else {
      NonePending(end, done);
      NonePending(end + 1, done);
    }
  }

  lemma NonePending(end: nat, done: set<nat>)
    ensures Pending(end, end, done) == []
  {
  }

  /** The inner loops of `applyMigration`: the longest transactional run from `first`, in one transaction. */
  method RunBatch(db: Database, j: Journal, m: nat, done: set<nat>, first: nat) returns (alive: bool, index: nat)
    requires m < |j| && first < |j[m].statements| && !j[m].statements[first].outside
    modifies db`lives, db`log, db`progress
    ensures index == BatchEnd(j[m].statements, first)
    ensures db.Value() == if alive then CommitBatch(j, m, Pending(first, index, done), old(db.Value()))
                          else old(db.Value())
    ensures IsOneEffect(old(db.lives), db.lives, alive)
  {
    var statements := j[m].statements;
    index := first;
    while index < |statements| && !statements[index].outside
      invariant first <= index <= |statements|
      invariant BatchEnd(statements, first) == BatchEnd(statements, index)
      modifies {}
    {
      index := index + 1;
    }
    var cursors := [];
    for cursor := first to index
      invariant cursors == Pending(first, cursor, done)
      modifies {}
    {
      PendingGrows(first, cursor, done);
      if cursor in done {
        continue;
      }
      cursors := cursors + [cursor];
    }
    alive := db.CommitStatements(j, m, cursors);
  }

  lemma AtIsLeft(j: Journal, start: Serial, n: nat, db: Db, pc: Pc)
    requires Fits(j, start) && AtStep(j, start, n, db, pc)
    ensures LeftBy(j, start, n, db)
  {
  }

  lemma TornStep(j: Journal, start: Serial, n: nat, db: Db, pc: Pc)
    requires Fits(j, start) && AtStep(j, start, n, db, pc)
    ensures PcFits(j, |j|, pc) && LeftBy(j, start, n, Broken(j, |j|, pc, db))
  {
  }

  /** A statement on its own, then its progress row in a transaction. */
  method RunOutside(db: Database, j: Journal, m: nat, lastAt: Option<int>, done: set<nat>, index: nat,
                    ghost start: Serial, ghost before: nat)
    returns (alive: bool, ghost n: nat)
    requires m < |j| && index < |j[m].statements| && index !in done && j[m].statements[index].outside
    requires Fits(j, start) && AtStep(j, start, before, db.Value(), Apply(lastAt, m, done, index))
    modifies db`lives, db`log, db`torn, db`progress
    ensures LeftBy(j, start, n, db.Value())
    ensures alive ==> AtStep(j, start, n, db.Value(), Apply(lastAt, m, done, index + 1))
    ensures if alive then db.lives == old(db.lives) - 2 else db.lives == 0 && old(db.lives) < 2
  {
    n := before;
    OneMoreStep(j, start, n, db.Value(), Apply(lastAt, m, done, index));
    TornStep(j, start, n, db.Value(), Apply(lastAt, m, done, index));
    alive := db.Execute(Offset(j, m) + index);
    if !alive { return; }
    n := n + 1;
    OneMoreStep(j, start, n, db.Value(), Mark(lastAt, m, done, index));
    alive := db.CommitProgress(j[m].hash, index);
    if !alive { return; }
    n := n + 1;
  }

  method ApplyMigration(db: Database, j: Journal, m: nat, lastAt: Option<int>, ghost start: Serial, ghost before: nat)
    returns (alive: bool, ghost n: nat)
    requires m < |j| && Fits(j, start) && !Skips(lastAt, j[m])
    requires AtStep(j, start, before, db.Value(), Scan(lastAt, m))
    modifies db`lives, db`log, db`torn, db`recorded, db`progress
    ensures LeftBy(j, start, n, db.Value())
    ensures alive ==> AtStep(j, start, n, db.Value(), Scan(lastAt, m + 1))
    ensures var cost := 2 + 2 * |j[m].statements|;
      if alive then db.lives >= old(db.lives) - cost else db.lives == 0 && old(db.lives) < cost
  {
    hide AtStep, LeftBy, AdvanceN, Step, CommitBatch, RecordMigration, CompletedStatements, BatchEnd, Pending, Ascends;
    n := before;
    var done;
    OneMoreStep(j, start, n, db.Value(), Scan(lastAt, m));
    alive, done := db.ReadCompleted(j[m].hash);
    if !alive { return; }
    n := n + 1;
    var index := 0;
    while index < |j[m].statements|
      invariant index <= |j[m].statements| && db.lives >= old(db.lives) - 1 - 2 * index
      invariant AtStep(j, start, n, db.Value(), Apply(lastAt, m, done, index))
    {
      OneMoreStep(j, start, n, db.Value(), Apply(lastAt, m, done, index));
      n := n + 1;
      if index in done {
        index := index + 1;
        continue;
      }
      if j[m].statements[index].outside {
        alive, n := RunOutside(db, j, m, lastAt, done, index, start, n - 1);
        if !alive { return; }
        index := index + 1;
        continue;
      }
      alive, index := RunBatch(db, j, m, done, index);
      if !alive {
        n := n - 1;
        return;
      }
    }
    OneMoreStep(j, start, n, db.Value(), Apply(lastAt, m, done, index));
    alive := db.CommitRecord(j[m]);
    if alive {
      n := n + 1;
      AtIsLeft(j, start, n, db.Value(), Scan(lastAt, m + 1));
    }
  }

  /** `/^[A-Za-z_][A-Za-z0-9_]*$/` */
  predicate IsIdentifier(name: string) {
    name != "" && !('0' <= name[0] <= '9') && forall i :: 0 <= i < |name| ==> IsWord(name[i])
  }

  function Quoted(name: string): string {
    "\"" + name + "\""
  }

  function InSchema(schema: string, table: string): string {
    Quoted(schema) + "." + Quoted(table)
  }

  /** What a run creates if it is missing: the schema and its two tables. */
  function Needed(schema: string, table: string): set<string> {
    {Quoted(schema), InSchema(schema, table), InSchema(schema, PROGRESS_TABLE)}
  }

  /** A name of letters, digits and underscores that does not begin with a digit. */
  predicate IsSafeName(name: string) {
    && name != "" && !('0' <= name[0] <= '9')
    && forall i :: 0 <= i < |name| ==>
         'a' <= name[i] <= 'z' || 'A' <= name[i] <= 'Z' || '0' <= name[i] <= '9' || name[i] == '_'
  }

  lemma IdentifierExactly(name: string)
    ensures IsIdentifier(name) <==> IsSafeName(name)
  {
  }

  /** The schema and its two tables, quoted and qualified. */
  function Objects(schema: string, table: string): set<string> {
    {"\"" + schema + "\"",
     ("\"" + schema + "\"") + "." + ("\"" + table + "\""),
     ("\"" + schema + "\"") + "." + ("\"" + "__drizzle_migration_progress" + "\"")}
  }

  lemma ObjectsAreNeeded(schema: string, table: string)
    ensures Objects(schema, table) == Needed(schema, table)
  {
  }

  /**
   * `runMigrations`, on a connection that dies after any number of effects or
   * inside a statement. It refuses a bad timeout, an unsafe name or a lock held
   * elsewhere without touching a table; otherwise it leaves the tables of `n`
   * model steps, or of a death inside the next one, and completes only at the
   * model's unlock, with the session's timeouts set and the schema and its
   * tables there. Whether it completes or dies, its lock is gone; on a connection
   * that lives for two effects a migration and two a statement, and eight more,
   * it does not die.
   */
  method RunMigrations(
    db: Database, j: Journal, schema: string, table: string, lockTimeoutMs: int, statementTimeoutMs: int)
    returns (outcome: Outcome, ghost n: nat)
    modifies db
    ensures outcome.BadLockTimeout? <==> !(1 <= lockTimeoutMs <= 4_000)
    ensures outcome.UnsafeIdentifier? <==>
      1 <= lockTimeoutMs <= 4_000 && !(IsSafeName(schema) && IsSafeName(table))
    ensures outcome.BadLockTimeout? || outcome.UnsafeIdentifier? ==> db.settings == old(db.settings)
    ensures outcome.AlreadyRunning? ==> old(db.lockTaken)
    ensures outcome.Completed? ==> !old(db.lockTaken)
    ensures old(db.lockTaken) || outcome.BadLockTimeout? || outcome.UnsafeIdentifier? ==>
      db.Value() == old(db.Value()) && db.objects == old(db.objects)
    ensures db.lockTaken == old(db.lockTaken)
    ensures LeftBy(j, Started(j, old(db.Value())), n, db.Value())
    ensures old(db.objects) <= db.objects <= old(db.objects) + Objects(schema, table)
    ensures outcome.Completed? ==>
      && AtStep(j, Started(j, old(db.Value())), n, db.Value(), Unlock)
      && Objects(schema, table) <= db.objects
      && db.settings == old(db.settings)["lock_timeout" := lockTimeoutMs]["statement_timeout" := statementTimeoutMs]
    ensures outcome.Died? ==> db.lives == 0 && old(db.lives) < 8 + 2 * |j| + 2 * |Flat(j)|
  {
    ObjectsAreNeeded(schema, table);
    IdentifierExactly(schema);
    IdentifierExactly(table);
    hide Needed, Objects, IsIdentifier, IsSafeName;
    n := 0;
    if lockTimeoutMs < 1 || lockTimeoutMs > MAX_LOCK_TIMEOUT_MS {
      return BadLockTimeout, n;
    }
    if !IsIdentifier(schema) || !IsIdentifier(table) {
      return UnsafeIdentifier, n;
    }
    var alive := db.Set("lock_timeout", lockTimeoutMs);
    if !alive {
      return Died, n;
    }
    alive := db.Set("statement_timeout", statementTimeoutMs);
    if !alive {
      return Died, n;
    }
    var locked;
    alive, locked := db.TryLock();
    if !alive {
      return Died, n;
    }
    if !locked {
      return AlreadyRunning, n;
    }
    alive, n := RunLocked(db, j, schema, table);
    if alive {
      alive := db.RoundTrip();
    }
    db.lockTaken := false;
    outcome := if alive then Completed else Died;
  }

  /** The part of `runMigrations` inside its `try`. */
  method RunLocked(db: Database, j: Journal, schema: string, table: string) returns (alive: bool, ghost n: nat)
    modifies db`lives, db`log, db`torn, db`recorded, db`progress, db`objects
    ensures LeftBy(j, Started(j, old(db.Value())), n, db.Value())
    ensures old(db.objects) <= db.objects <= old(db.objects) + Needed(schema, table)
    ensures alive ==> AtStep(j, Started(j, old(db.Value())), n, db.Value(), Unlock)
    ensures alive ==> Needed(schema, table) <= db.objects
    ensures var cost := 4 + 2 * |j| + 2 * |Flat(j)|;
      if alive then db.lives >= old(db.lives) - cost else db.lives == 0 && old(db.lives) < cost
  {
    hide AtStep, LeftBy, AdvanceN, Step, Started, LatestAt;
    ghost var start := Started(j, db.Value());
    n := 0;
    StartsAtOnce(j, db.Value());
    AtIsLeft(j, start, n, db.Value(), Watermark);
    alive := CreateTables(db, schema, table);
    if !alive { return; }
    var lastAt := LatestAt(db.recorded);
    alive := db.RoundTrip();
    if !alive { return; }
    OneMoreStep(j, start, n, db.Value(), Watermark);
    n := 1;
    OffsetEnds(j);
    for m := 0 to |j|
      invariant AtStep(j, start, n, db.Value(), Scan(lastAt, m))
      invariant alive && db.lives >= old(db.lives) - 4 - 2 * m - 2 * Offset(j, m)
      modifies db`lives, db`log, db`torn, db`recorded, db`progress
    {
      FlatAt(j, m);
      if Skips(lastAt, j[m]) {
        OneMoreStep(j, start, n, db.Value(), Scan(lastAt, m));
        n := n + 1;
        continue;
      }
      alive, n := ApplyMigration(db, j, m, lastAt, start, n);
      if !alive {
        OffsetMonotone(j, m + 1, |j|);
        return;
      }
    }
    OneMoreStep(j, start, n, db.Value(), Scan(lastAt, |j|));
    n := n + 1;
    AtIsLeft(j, start, n, db.Value(), Unlock);
  }

  lemma StartsAtOnce(j: Journal, db: Db)
    ensures AtStep(j, Started(j, db), 0, db, Watermark)
  {
  }

  /** The schema, the table of migrations and the table of progress, unless they are there. */
  method CreateTables(db: Database, schema: string, table: string) returns (alive: bool)
    modifies db`lives, db`objects
    ensures old(db.objects) <= db.objects <= old(db.objects) + Needed(schema, table)
    ensures alive ==> Needed(schema, table) <= db.objects
    ensures if alive then db.lives == old(db.lives) - 3 else db.lives == 0 && old(db.lives) < 3
  {
    alive := db.CreateIfMissing(Quoted(schema));
    if !alive { return; }
    alive := db.CreateIfMissing(InSchema(schema, table));
    if !alive { return; }
    alive := db.CreateIfMissing(InSchema(schema, PROGRESS_TABLE));
  }

  lemma {:induction false} StepsAreSchedules(j: Journal, schedule: seq<Action>, n: nat) returns (longer: seq<Action>)
    requires Run(j, schedule).session.None?
    ensures Run(j, longer).db == AdvanceN(j, Started(j, Run(j, schedule).db), n).db
    ensures Run(j, longer).session == AdvanceN(j, Started(j, Run(j, schedule).db), n).session
  {
    if n == 0 {
      longer := schedule + [Begin(|j|)];
      assert longer[..|longer| - 1] == schedule;
    } else {
      var shorter := StepsAreSchedules(j, schedule, n - 1);
      longer := shorter + [Advance];
      assert longer[..|longer| - 1] == shorter;
    }
  }

  /** The tables any run leaves are tables of a schedule of the model, so its invariant holds of them. */
  lemma RunsAreSchedules(j: Journal, schedule: seq<Action>, n: nat, db: Db) returns (longer: seq<Action>)
    requires Run(j, schedule).session.None? && LeftBy(j, Started(j, Run(j, schedule).db), n, db)
    ensures Run(j, longer).db == db && Run(j, longer).session.None?
  {
    var steps := StepsAreSchedules(j, schedule, n);
    longer := steps + [if db == Run(j, steps).db then Crash else Tear];
    assert longer[..|longer| - 1] == steps;
  }
}
