/**
 * What the migration runner promises over every schedule of crashes, restarts
 * and interleaved runners: the schema is the fold of the journal, executions
 * are counted, and recorded migrations and progress rows are prefixes.
 */
module MigrationRecovery {
  import opened Common
  import opened MigrationModel
  import opened MigrationInterleaving

  // ---- The schema ------------------------------------------------------------

  /** Run statements in order on a schema; `effect` is what one statement does to it. */
  function Fold<S>(effect: (Statement, S) -> S, statements: seq<Statement>, schema: S): S {
    if statements == [] then schema
    else
      var last := |statements| - 1;
      effect(statements[last], Fold(effect, statements[..last], schema))
  }

  /** Replay the history; a half-done execution has an effect of its own. */
  function Replay<S>(
    effect: (Statement, S) -> S, half: (Statement, S) -> S, j: Journal, log: seq<nat>, torn: set<nat>, schema: S): S
    requires forall i :: 0 <= i < |log| ==> log[i] < |Flat(j)|
  {
    if log == [] then schema
    else
      var last := |log| - 1;
      var before := Replay(effect, half, j, log[..last], torn, schema);
      if last in torn then half(Flat(j)[log[last]], before) else effect(Flat(j)[log[last]], before)
  }

  /** Running an outside statement again straight away changes nothing (`IF NOT EXISTS`). */
  ghost predicate RepeatsAreHarmless<S(!new)>(effect: (Statement, S) -> S, j: Journal) {
    forall st, schema :: st in Flat(j) && st.outside ==>
      effect(st, effect(st, schema)) == effect(st, schema)
  }

  /** Running an outside statement after half of it makes it whole. */
  ghost predicate TearsAreMended<S(!new)>(effect: (Statement, S) -> S, half: (Statement, S) -> S, j: Journal) {
    forall st, schema :: st in Flat(j) && st.outside ==>
      effect(st, half(st, schema)) == effect(st, schema)
  }

  lemma StaircasePrefix(j: Journal, log: seq<nat>)
    requires Staircase(j, log) && log != []
    ensures var before := log[..|log| - 1];
      Staircase(j, before) &&
      (Top(log) == Top(before) + 1 || (Top(log) == Top(before) && OutsideAt(j, Top(log) - 1)))
  {
    var before := log[..|log| - 1];
    if before == [] {
      assert log[0] == 0;
    } else {
      assert Climbs(j, log, |log| - 1);
      forall i: nat | 0 < i < |before|
        ensures Climbs(j, before, i)
      {
        assert Climbs(j, log, i);
      }
    }
  }

  lemma {:induction false} StaircaseInRange(j: Journal, log: seq<nat>)
    requires Staircase(j, log)
    ensures forall i :: 0 <= i < |log| ==> log[i] < Top(log)
  {
    if log != [] {
      StaircasePrefix(j, log);
      StaircaseInRange(j, log[..|log| - 1]);
    }
  }

  /** Half-done executions are of outside statements, each followed by the same statement. */
  ghost predicate TornFollowed(j: Journal, log: seq<nat>, torn: set<nat>) {
    forall i: nat :: i in torn && i < |log| ==>
      OutsideAt(j, log[i]) && (i + 1 < |log| ==> log[i + 1] == log[i])
  }

  ghost predicate LastIsTorn(log: seq<nat>, torn: set<nat>) {
    log != [] && |log| - 1 in torn
  }

  lemma TornFollowedBefore(j: Journal, log: seq<nat>, torn: set<nat>)
    requires TornFollowed(j, log, torn) && log != []
    ensures var before := log[..|log| - 1];
      TornFollowed(j, before, torn) && (LastIsTorn(before, torn) ==> log[|log| - 1] == before[|before| - 1])
  {
  }

  /**
   * A history with harmless repeats, some of them half done, replays to the
   * fold of the statements it has reached; if it ends in a half-done one, it
   * does so once that statement is run again.
   */
  lemma {:induction false} ReplayIsFold<S(!new)>(
    effect: (Statement, S) -> S, half: (Statement, S) -> S, j: Journal, log: seq<nat>, torn: set<nat>, schema: S)
    requires Staircase(j, log) && TornFollowed(j, log, torn)
    requires RepeatsAreHarmless(effect, j) && TearsAreMended(effect, half, j)
    requires forall i :: 0 <= i < |log| ==> log[i] < |Flat(j)|
    ensures var all := Replay(effect, half, j, log, torn, schema);
      var reached := Fold(effect, Flat(j)[..Top(log)], schema);
      if LastIsTorn(log, torn) then effect(Flat(j)[Top(log) - 1], all) == reached else all == reached
    decreases |log|
  {
    hide Staircase, TornFollowed;
    if log != [] {
      var before := log[..|log| - 1];
      StaircasePrefix(j, log);
      TornFollowedBefore(j, log, torn);
      ReplayIsFold(effect, half, j, before, torn, schema);
      var top := Top(log);
      assert Flat(j)[..top][..top - 1] == Flat(j)[..top - 1];
      assert Flat(j)[top - 1] in Flat(j);
      TornIsOutside(j, log, torn);
    }
  }

  lemma TornIsOutside(j: Journal, log: seq<nat>, torn: set<nat>)
    requires TornFollowed(j, log, torn)
    ensures LastIsTorn(log, torn) ==> OutsideAt(j, Top(log) - 1)
  {
  }

  lemma {:induction false} StaircaseCounts(j: Journal, log: seq<nat>, p: nat)
    requires Staircase(j, log)
    ensures multiset(log)[p] >= 1 <==> p < Top(log)
    ensures !OutsideAt(j, p) ==> multiset(log)[p] <= 1
  {
    if log != [] {
      var before, last := log[..|log| - 1], log[|log| - 1];
      assert log == before + [last];
      StaircasePrefix(j, log);
      StaircaseCounts(j, before, p);
    }
  }

  // ---- Reachable states ----------------------------------------------------------

  /** The invariant of the serial model carries over to interleaved runners. */
  lemma WorldIsGood(j: Journal, moves: seq<Move>) returns (g: Ghost)
    requires StrictlyIncreasing(j)
    ensures var w := Play(j, moves);
      && DbGood(j, w.db, g)
      && (Holder(w).Some? ==> PcGood(j, Holder(w).value.len, Holder(w).value.pc, w.db, g))
      && |w.db.log| <= Top(w.db.log) + w.crashes
  {
    InterleavingIsSerial(j, moves);
    g := RunIsGood(j, Schedule(j, moves));
  }

  /** The runner is about to release the lock: every migration it knows has been dealt with. */
  predicate Succeeding(j: Journal, w: World, id: nat) {
    id in w.runners && w.runners[id] == Runner(|j|, Inside(Unlock))
  }

  lemma SuccessRecordsAll(j: Journal, moves: seq<Move>, id: nat) returns (g: Ghost)
    requires StrictlyIncreasing(j) && Succeeding(j, Play(j, moves), id)
    ensures DbGood(j, Play(j, moves).db, g) && |Play(j, moves).db.recorded| == |j|
  {
    PlayKeepsLock(j, moves);
    assert IsInside(Play(j, moves), id);
    g := WorldIsGood(j, moves);
  }

  /**
   * Crash recovery. However the runs before it crashed, broke off inside a
   * statement, restarted or raced, once a run of the whole journal succeeds the
   * schema is exactly what running every statement once, in journal order,
   * would give.
   */
  lemma CrashRecovery<S(!new)>(
    effect: (Statement, S) -> S, half: (Statement, S) -> S, j: Journal, moves: seq<Move>, id: nat, schema: S)
    requires StrictlyIncreasing(j) && RepeatsAreHarmless(effect, j) && TearsAreMended(effect, half, j)
    requires Succeeding(j, Play(j, moves), id)
    ensures var db := Play(j, moves).db;
      && (forall i :: 0 <= i < |db.log| ==> db.log[i] < |Flat(j)|)
      && Replay(effect, half, j, db.log, db.torn, schema) == Fold(effect, Flat(j), schema)
  {
    var g := SuccessRecordsAll(j, moves, id);
    var db := Play(j, moves).db;
    hide Play, Replay, Staircase;
    OffsetEnds(j);
    StaircaseInRange(j, db.log);
    ReplayIsFold(effect, half, j, db.log, db.torn, schema);
    assert Flat(j)[..|Flat(j)|] == Flat(j);
  }

  /**
   * In every reachable state a transactional statement has committed at most
   * once; every statement of a recorded migration has committed; and after f
   * crashes there have been at most N + f executions.
   */
  lemma ExecutionCounts(j: Journal, moves: seq<Move>, m: nat, i: nat)
    requires StrictlyIncreasing(j) && m < |j| && i < |j[m].statements|
    ensures var w := Play(j, moves); var runs := multiset(w.db.log)[Offset(j, m) + i];
      && (!j[m].statements[i].outside ==> runs <= 1)
      && (m < |w.db.recorded| ==> runs >= 1)
      && (m > |w.db.recorded| ==> runs == 0)
      && |w.db.log| <= |Flat(j)| + w.crashes
  {
    var g := WorldIsGood(j, moves);
    var db := Play(j, moves).db;
    StaircaseCounts(j, db.log, Offset(j, m) + i);
    RecordedMeansReached(j, db, g, m, i);
  }

  lemma RecordedMeansReached(j: Journal, db: Db, g: Ghost, m: nat, i: nat)
    requires DbGood(j, db, g) && m < |j| && i < |j[m].statements|
    ensures m < |db.recorded| ==> Offset(j, m) + i < Top(db.log)
    ensures m > |db.recorded| ==> Offset(j, m) + i >= Top(db.log)
    ensures OutsideAt(j, Offset(j, m) + i) <==> j[m].statements[i].outside
  {
    FlatAt(j, m);
    assert Flat(j)[Offset(j, m) + i] == j[m].statements[i];
    if m < |db.recorded| {
      OffsetMonotone(j, m + 1, |db.recorded|);
    } else if m > |db.recorded| {
      FlatAt(j, |db.recorded|);
      OffsetMonotone(j, |db.recorded| + 1, m);
    }
  }

  /**
   * In every reachable state the recorded migrations are a prefix of the
   * journal, and the progress rows are statements `0..k` of the first
   * unrecorded one, so what a runner finds done is always a prefix.
   */
  lemma TablesArePrefixes(j: Journal, moves: seq<Move>)
    requires StrictlyIncreasing(j)
    ensures var db := Play(j, moves).db;
      RecordedPrefix(j, db) && exists k :: ProgressPrefix(j, db, k)
  {
    var g := WorldIsGood(j, moves);
  }

  /** A session that finds everything recorded has no effect left to make, whole or half. */
  lemma NothingLeft(j: Journal, len: nat, pc: Pc, db: Db, g: Ghost)
    requires PcGood(j, len, pc, db, g) && |db.recorded| == |j|
    ensures Broken(j, len, pc, db) == db && (!pc.Unlock? ==> Perform(j, len, pc, db).1 == db)
  {
  }

  /** Once every migration is recorded, no later run executes a statement or writes a row. */
  lemma {:induction false} RerunChangesNothing(j: Journal, moves: seq<Move>, later: seq<Move>)
    requires StrictlyIncreasing(j) && |Play(j, moves).db.recorded| == |j|
    ensures Play(j, moves + later).db == Play(j, moves).db
    decreases |later|
  {
    if later == [] {
      assert moves + later == moves;
    } else {
      var before, move := later[..|later| - 1], later[|later| - 1];
      RerunChangesNothing(j, moves, before);
      assert (moves + later)[..|moves + later| - 1] == moves + before;
      var g := WorldIsGood(j, moves + before);
      PlayKeepsLock(j, moves + before);
      var w := Play(j, moves + before);
      assert Play(j, moves + later) == Next(j, w, move);
      hide Play, PcGood, DbGood, Perform, Broken;
      assert IsInside(w, move.id) <==> w.lock == Some(move.id);
      if IsInside(w, move.id) {
        NothingLeft(j, w.runners[move.id].len, w.runners[move.id].phase.pc, w.db, g);
      }
    }
  }

  /** A session never writes a progress row whose key is already there. */
  lemma ProgressKeysAreFree(j: Journal, schedule: seq<Action>, cursor: nat)
    requires StrictlyIncreasing(j) && Run(j, schedule).session.Some?
    ensures match Run(j, schedule).session.value.pc
      case Apply(_, m, done, index) =>
        cursor >= index && cursor !in done ==> (j[m].hash, cursor) !in Run(j, schedule).db.progress
      case Mark(_, m, _, index) => (j[m].hash, index) !in Run(j, schedule).db.progress
      case _ => true
  {
    var g := RunIsGood(j, schedule);
  }
}
