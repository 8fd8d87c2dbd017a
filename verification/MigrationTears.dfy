/**
 * What the recovery theorem asks of a statement that runs outside a
 * transaction, and that it asks no more than recovery needs: where such a
 * statement does not mend a half-done run of itself, one death is enough.
 */
module MigrationTears {
  import opened Common
  import opened MigrationModel
  import opened MigrationInterleaving
  import opened MigrationRecovery

  ghost predicate RecoversTo<S(!new)>(
    effect: (Statement, S) -> S, half: (Statement, S) -> S, j: Journal, db: Db, schema: S)
  {
    && (forall i :: 0 <= i < |db.log| ==> db.log[i] < |Flat(j)|)
    && Replay(effect, half, j, db.log, db.torn, schema) == Fold(effect, Flat(j), schema)
  }

  /** However runs die, a run that succeeds leaves the schema of the whole journal. */
  ghost predicate IsCrashSafe<S(!new)>(effect: (Statement, S) -> S, half: (Statement, S) -> S, j: Journal) {
    forall moves, id, schema :: Succeeding(j, Play(j, moves), id) ==>
      RecoversTo(effect, half, j, Play(j, moves).db, schema)
  }

  /** A journal of one migration with one statement, which runs outside a transaction. */
  predicate IsOneOutside(j: Journal) {
    |j| == 1 && |j[0].statements| == 1 && j[0].statements[0].outside
  }

  /** The lock is free and nothing is recorded or marked; these statements have run, these of them by half. */
  ghost predicate HasRun(j: Journal, moves: seq<Move>, log: seq<nat>, torn: set<nat>, id: nat) {
    var w := Play(j, moves);
    w.lock.None? && id !in w.runners && w.db == Db(log, torn, [], {})
  }

  /** The runner holds the lock at this point, with these tables. */
  ghost predicate StandsAt(j: Journal, moves: seq<Move>, id: nat, pc: Pc, db: Db) {
    var w := Play(j, moves);
    id in w.runners && w.runners[id] == Runner(1, Inside(pc)) && w.lock == Some(id) && w.db == db
  }

  lemma PlayMore(j: Journal, moves: seq<Move>, move: Move) returns (longer: seq<Move>)
    ensures Play(j, longer) == Next(j, Play(j, moves), move)
  {
    longer := moves + [move];
    assert longer[..|longer| - 1] == moves;
  }

  lemma OneFlat(j: Journal)
    requires IsOneOutside(j)
    ensures Flat(j) == j[0].statements && Offset(j, 0) == 0
  {
    assert j[..0] == [] && Flat(j[..0]) == [];
  }

  /** One more effect of the runner that holds the lock. */
  lemma GoOn(j: Journal, moves: seq<Move>, id: nat, pc: Pc, db: Db) returns (longer: seq<Move>)
    requires |j| == 1 && StandsAt(j, moves, id, pc, db) && !pc.Unlock?
    ensures PcFits(j, 1, pc)
    ensures var r := Perform(j, 1, pc, db); StandsAt(j, longer, id, r.0, r.1)
    ensures Play(j, longer).crashes == Play(j, moves).crashes
    ensures Play(j, longer).runners.Keys == Play(j, moves).runners.Keys
  {
    longer := PlayMore(j, moves, Go(id));
  }

  /** A new runner gets as far as the statement. */
  lemma ReachesStatement(j: Journal, moves: seq<Move>, log: seq<nat>, torn: set<nat>, id: nat)
    returns (longer: seq<Move>)
    requires IsOneOutside(j) && HasRun(j, moves, log, torn, id)
    ensures StandsAt(j, longer, id, Apply(None, 0, {}, 0), Db(log, torn, [], {}))
    ensures Play(j, longer).crashes == Play(j, moves).crashes
    ensures Play(j, longer).runners.Keys == Play(j, moves).runners.Keys + {id}
  {
    var db := Db(log, torn, [], {});
    longer := PlayMore(j, moves, Launch(id, 1));
    longer := PlayMore(j, longer, Go(id));
    longer := GoOn(j, longer, id, Watermark, db);
    longer := GoOn(j, longer, id, Scan(None, 0), db);
    assert CompletedStatements(db, j[0].hash) == {};
  }

  /** From there it runs the statement, marks it, records the migration and is about to unlock. */
  lemma Finishes(j: Journal, moves: seq<Move>, log: seq<nat>, torn: set<nat>, id: nat) returns (longer: seq<Move>)
    requires IsOneOutside(j) && HasRun(j, moves, log, torn, id)
    ensures Succeeding(j, Play(j, longer), id)
    ensures var w := Play(j, longer);
      w.db.log == log + [0] && w.db.torn == torn && w.crashes == Play(j, moves).crashes
  {
    hide Play;
    OneFlat(j);
    longer := ReachesStatement(j, moves, log, torn, id);
    var db := Db(log, torn, [], {});
    longer := GoOn(j, longer, id, Apply(None, 0, {}, 0), db);
    db := db.(log := log + [0]);
    longer := GoOn(j, longer, id, Mark(None, 0, {}, 0), db);
    db := InsertProgress(db, j[0].hash, 0);
    longer := GoOn(j, longer, id, Apply(None, 0, {}, 1), db);
    db := RecordMigration(db, j[0]);
    longer := GoOn(j, longer, id, Scan(None, 1), db);
  }

  /** One runner dies on the statement, half-way through it or right after it; the next one succeeds. */
  lemma DiesOnce(j: Journal, half: bool) returns (moves: seq<Move>)
    requires IsOneOutside(j)
    ensures var w := Play(j, moves);
      && Succeeding(j, w, 1) && w.crashes == 1
      && w.db.log == [0, 0] && w.db.torn == if half then {0} else {}
  {
    OneFlat(j);
    moves := ReachesStatement(j, [], [], {}, 0);
    var db := Db([], {}, [], {});
    if half {
      moves := PlayMore(j, moves, Break(0));
      assert [] + [0] == [0] && {} + {0} == {0};
    } else {
      moves := GoOn(j, moves, 0, Apply(None, 0, {}, 0), db);
      moves := PlayMore(j, moves, Kill(0));
    }
    assert HasRun(j, moves, [0], if half then {0} else {}, 1);
    moves := Finishes(j, moves, [0], if half then {0} else {}, 1);
  }

  lemma ReplayOfTwo<S(!new)>(
    effect: (Statement, S) -> S, half: (Statement, S) -> S, j: Journal, torn: set<nat>, schema: S)
    requires IsOneOutside(j) && 1 !in torn
    ensures |Flat(j)| == 1
    ensures var st := j[0].statements[0];
      Replay(effect, half, j, [0, 0], torn, schema) ==
        effect(st, if 0 in torn then half(st, schema) else effect(st, schema))
    ensures Fold(effect, Flat(j), schema) == effect(j[0].statements[0], schema)
  {
    OneFlat(j);
    var one, two: seq<nat> := [0], [0, 0];
    assert two[..1] == one && one[..0] == [];
    assert Replay(effect, half, j, one[..0], torn, schema) == schema;
    assert Fold(effect, Flat(j)[..0], schema) == schema;
  }

  /**
   * For a single statement outside a transaction, recovery works for every
   * schedule of deaths exactly when running it again is harmless and mends a
   * half-done run. Otherwise one death, half-way through or right after, is enough.
   */
  lemma SafeExactly<S(!new)>(effect: (Statement, S) -> S, half: (Statement, S) -> S, j: Journal)
    requires IsOneOutside(j)
    ensures IsCrashSafe(effect, half, j) <==> RepeatsAreHarmless(effect, j) && TearsAreMended(effect, half, j)
  {
    hide Play, Replay, Fold, Flat;
    OneFlat(j);
    if RepeatsAreHarmless(effect, j) && TearsAreMended(effect, half, j) {
      forall moves, id, schema | Succeeding(j, Play(j, moves), id)
        ensures RecoversTo(effect, half, j, Play(j, moves).db, schema)
      {
        CrashRecovery(effect, half, j, moves, id, schema);
      }
    }
    if IsCrashSafe(effect, half, j) {
      var st := j[0].statements[0];
      var torn := DiesOnce(j, true);
      var whole := DiesOnce(j, false);
      forall schema
        ensures effect(st, half(st, schema)) == effect(st, schema)
        ensures effect(st, effect(st, schema)) == effect(st, schema)
      {
        ReplayOfTwo(effect, half, j, {0}, schema);
        ReplayOfTwo(effect, half, j, {}, schema);
        assert RecoversTo(effect, half, j, Play(j, torn).db, schema);
        assert RecoversTo(effect, half, j, Play(j, whole).db, schema);
      }
      assert forall s :: s in Flat(j) ==> s == st;
    }
  }

  /** The schedule itself: one death inside a statement that its retry does not mend, and the run after it succeeds. */
  lemma TornStatementStays<S(!new)>(
    effect: (Statement, S) -> S, half: (Statement, S) -> S, j: Journal, schema: S) returns (moves: seq<Move>)
    requires IsOneOutside(j)
    requires var st := j[0].statements[0]; effect(st, half(st, schema)) != effect(st, schema)
    ensures Succeeding(j, Play(j, moves), 1) && Play(j, moves).crashes == 1
    ensures !RecoversTo(effect, half, j, Play(j, moves).db, schema)
  {
    hide Play, Replay, Fold, Flat;
    moves := DiesOnce(j, true);
    ReplayOfTwo(effect, half, j, {0}, schema);
  }
}
