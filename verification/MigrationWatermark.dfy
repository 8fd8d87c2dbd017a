/**
 * The watermark: an undisturbed run always finishes, recovery works for a
 * journal exactly when its `when` values strictly increase, and what the
 * watermark has passed by is never run.
 */
module MigrationWatermark {
  import opened Common
  import opened MigrationModel

  /** Any schedule can be continued by one more action. */
  lemma RunMore(j: Journal, schedule: seq<Action>, a: Action) returns (longer: seq<Action>)
    ensures Run(j, longer) == Step(j, Run(j, schedule), a) && schedule <= longer
  {
    longer := schedule + [a];
    assert longer[..|longer| - 1] == schedule;
  }

  /** No execution in the history is of a statement of migration `x`. */
  ghost predicate NeverRan(j: Journal, log: seq<nat>, x: nat)
    requires x < |j|
  {
    forall k :: 0 <= k < |log| ==> !(Offset(j, x) <= log[k] < Offset(j, x) + |j[x].statements|)
  }

  /** Every other migration that had not run still has not. */
  ghost predicate OnlyRuns(j: Journal, before: seq<nat>, after: seq<nat>, m: nat) {
    forall x: nat :: x < |j| && x != m && NeverRan(j, before, x) ==> NeverRan(j, after, x)
  }

  /** The migration a session is working on, if it is at a statement. */
  predicate WorksOn(s: Serial, x: nat) {
    s.session.Some? && s.session.value.pc.Apply? && s.session.value.pc.next == x
  }

  /** Positions of one migration are none of another. */
  lemma OtherPositions(j: Journal, m: nat, index: nat, x: nat)
    requires m < |j| && index < |j[m].statements| && x < |j| && x != m
    ensures !(Offset(j, x) <= Offset(j, m) + index < Offset(j, x) + |j[x].statements|)
  {
    hide Offset;
    FlatAt(j, m);
    FlatAt(j, x);
    if x < m {
      OffsetMonotone(j, x + 1, m);
    } else {
      OffsetMonotone(j, m + 1, x);
    }
  }

  lemma MoreOfOthers(j: Journal, log: seq<nat>, m: nat, cursors: seq<nat>, x: nat)
    requires m < |j| && x < |j| && x != m && NeverRan(j, log, x)
    requires forall c :: c in cursors ==> c < |j[m].statements|
    ensures NeverRan(j, log + Positions(Offset(j, m), cursors), x)
  {
    hide Offset;
    var after := log + Positions(Offset(j, m), cursors);
    forall k | 0 <= k < |after|
      ensures !(Offset(j, x) <= after[k] < Offset(j, x) + |j[x].statements|)
    {
      if k >= |log| {
        assert cursors[k - |log|] in cursors;
        OtherPositions(j, m, cursors[k - |log|], x);
      }
    }
  }

  /** A step of a session executes statements of the migration it is working on, and no others. */
  lemma StepRunsItsOwn(j: Journal, s: Serial, a: Action, x: nat)
    requires Fits(j, s) && x < |j| && NeverRan(j, s.db.log, x) && !WorksOn(s, x)
    ensures NeverRan(j, Step(j, s, a).db.log, x)
  {
    if (a.Advance? || a.Tear?) && s.session.Some? && s.session.value.pc.Apply? {
      var pc := s.session.value.pc;
      var log, m, index := s.db.log, pc.next, pc.index;
      hide NeverRan, Offset, CompletedStatements;
      if index < |j[m].statements| {
        MoreOfOthers(j, log, m, [index], x);
        assert Positions(Offset(j, m), [index]) == [Offset(j, m) + index];
        var end := BatchEnd(j[m].statements, index);
        MoreOfOthers(j, log, m, Pending(index, end, pc.done), x);
      }
    } else {
      hide NeverRan, Offset, CompletedStatements, LatestAt;
    }
  }

  ghost predicate At(s: Serial, len: nat, pc: Pc) {
    s.session == Some(Session(len, pc))
  }

  lemma StepOnlyRuns(j: Journal, s: Serial, m: nat)
    requires Fits(j, s) && forall x :: WorksOn(s, x) ==> x == m
    ensures OnlyRuns(j, s.db.log, Step(j, s, Advance).db.log, m)
  {
    hide NeverRan, Step, WorksOn;
    forall x: nat | x < |j| && x != m && NeverRan(j, s.db.log, x)
      ensures NeverRan(j, Step(j, s, Advance).db.log, x)
    {
      StepRunsItsOwn(j, s, Advance, x);
    }
  }

  /** From any point inside a migration, the session gets past its last statement. */
  lemma {:induction false} StatementsFinish(
      j: Journal, schedule: seq<Action>, len: nat, lastAt: Option<int>, m: nat, done: set<nat>, index: nat)
    returns (longer: seq<Action>)
    requires At(Run(j, schedule), len, Apply(lastAt, m, done, index))
    ensures var s := Run(j, longer);
      At(s, len, Apply(lastAt, m, done, |j[m].statements|)) && s.db.recorded == Run(j, schedule).db.recorded
    ensures schedule <= longer && OnlyRuns(j, Run(j, schedule).db.log, Run(j, longer).db.log, m)
    decreases |j[m].statements| - index
  {
    longer := schedule;
    if index < |j[m].statements| {
      longer := RunMore(j, longer, Advance);
      StepOnlyRuns(j, Run(j, schedule), m);
      if Run(j, longer).session.value.pc.Mark? {
        StepOnlyRuns(j, Run(j, longer), m);
        longer := RunMore(j, longer, Advance);
      }
      longer := StatementsFinish(j, longer, len, lastAt, m, done, Run(j, longer).session.value.pc.index);
    }
  }

  /** A pending migration gets recorded. */
  lemma MigrationFinishes(j: Journal, schedule: seq<Action>, len: nat, lastAt: Option<int>, m: nat)
    returns (longer: seq<Action>)
    requires At(Run(j, schedule), len, Scan(lastAt, m)) && m < len && !Skips(lastAt, j[m])
    ensures At(Run(j, longer), len, Scan(lastAt, m + 1))
    ensures Run(j, longer).db.recorded ==
      Run(j, schedule).db.recorded + [Row(j[m].hash, j[m].folderMillis)]
    ensures schedule <= longer && OnlyRuns(j, Run(j, schedule).db.log, Run(j, longer).db.log, m)
  {
    var done := CompletedStatements(Run(j, schedule).db, j[m].hash);
    longer := RunMore(j, schedule, Advance);
    longer := StatementsFinish(j, longer, len, lastAt, m, done, 0);
    longer := RunMore(j, longer, Advance);
  }

  /** A session that is not disturbed reaches the unlock. */
  lemma {:induction false} ScanFinishes(j: Journal, schedule: seq<Action>, len: nat, lastAt: Option<int>, m: nat)
    returns (longer: seq<Action>)
    requires At(Run(j, schedule), len, Scan(lastAt, m))
    ensures At(Run(j, longer), len, Unlock)
    ensures |Run(j, longer).db.recorded| <= |Run(j, schedule).db.recorded| + (len - m)
    ensures schedule <= longer
    decreases len - m
  {
    if m < len && !Skips(lastAt, j[m]) {
      longer := MigrationFinishes(j, schedule, len, lastAt, m);
    } else {
      longer := RunMore(j, schedule, Advance);
    }
    if m < len {
      longer := ScanFinishes(j, longer, len, lastAt, m + 1);
    }
  }

  /** Nothing that has happened can stop one more undisturbed run from completing the journal. */
  lemma UndisturbedRunSucceeds(j: Journal, schedule: seq<Action>) returns (longer: seq<Action>)
    requires StrictlyIncreasing(j) && Run(j, schedule).session.None?
    ensures At(Run(j, longer), |j|, Unlock)
    ensures |Run(j, longer).db.recorded| == |j| && Run(j, longer).db.progress == {}
  {
    longer := RunMore(j, schedule, Begin(|j|));
    longer := RunMore(j, longer, Advance);
    longer := ScanFinishes(j, longer, |j|, LatestAt(Run(j, schedule).db.recorded), 0);
    var g := RunIsGood(j, longer);
  }

  // ---- Strictly increasing `when` values are necessary ----------------------------

  /** However earlier runs ended, a run that succeeds has recorded every migration. */
  ghost predicate AlwaysRecovers(j: Journal) {
    forall schedule :: At(Run(j, schedule), |j|, Unlock) ==> |Run(j, schedule).db.recorded| == |j|
  }

  lemma {:induction false} FreshRunReaches(j: Journal, m: nat) returns (schedule: seq<Action>)
    requires m <= |j|
    ensures var s := Run(j, schedule); At(s, |j|, Scan(None, m)) && |s.db.recorded| == m
    ensures forall i :: 0 <= i < m ==> Run(j, schedule).db.recorded[i].createdAt == j[i].folderMillis
    ensures forall x :: m <= x < |j| ==> NeverRan(j, Run(j, schedule).db.log, x)
  {
    if m == 0 {
      schedule := RunMore(j, [], Begin(|j|));
      schedule := RunMore(j, schedule, Advance);
    } else {
      var before := FreshRunReaches(j, m - 1);
      schedule := MigrationFinishes(j, before, |j|, None, m - 1);
    }
  }

  lemma {:induction false} LatestIsUpperBound(rows: seq<Row>, i: nat)
    requires i < |rows|
    ensures LatestAt(rows).Some? && rows[i].createdAt <= LatestAt(rows).value
  {
    var last := |rows| - 1;
    if i < last {
      LatestIsUpperBound(rows[..last], i);
    }
  }

  /** Migrations at or below the watermark are passed over one by one. */
  lemma {:induction false} ScanSkips(j: Journal, schedule: seq<Action>, lastAt: Option<int>, m: nat)
    returns (longer: seq<Action>)
    requires At(Run(j, schedule), |j|, Scan(lastAt, 0)) && m <= |j|
    requires forall i :: 0 <= i < m ==> Skips(lastAt, j[i])
    ensures At(Run(j, longer), |j|, Scan(lastAt, m)) && Run(j, longer).db == Run(j, schedule).db
    ensures schedule <= longer
  {
    longer := schedule;
    if m > 0 {
      longer := ScanSkips(j, schedule, lastAt, m - 1);
      longer := RunMore(j, longer, Advance);
    }
  }

  /** The watermark has passed migration `x` by: no session is, or can get, to it. */
  ghost predicate IsPassedBy(j: Journal, s: Serial, x: nat)
    requires x < |j|
  {
    && NeverRan(j, s.db.log, x) && Skips(LatestAt(s.db.recorded), j[x])
    && (s.session.Some? ==>
          match s.session.value.pc
          case Scan(lastAt, _) => Skips(lastAt, j[x])
          case Apply(lastAt, next, _, _) => Skips(lastAt, j[x]) && next != x
          case Mark(lastAt, next, _, _) => Skips(lastAt, j[x]) && next != x
          case _ => true)
  }

  lemma WatermarkRises(rows: seq<Row>, row: Row, migration: Migration)
    requires Skips(LatestAt(rows), migration)
    ensures Skips(LatestAt(rows + [row]), migration)
  {
    assert (rows + [row])[..|rows|] == rows;
  }

  lemma StepPassesBy(j: Journal, s: Serial, a: Action, x: nat)
    requires Fits(j, s) && x < |j| && IsPassedBy(j, s, x)
    ensures IsPassedBy(j, Step(j, s, a), x)
  {
    StepRunsItsOwn(j, s, a, x);
    hide NeverRan, LatestAt, CompletedStatements, Offset, CommitBatch;
    if a.Advance? && s.session.Some? && s.session.value.pc.Apply? {
      var migration := j[s.session.value.pc.next];
      WatermarkRises(s.db.recorded, Row(migration.hash, migration.folderMillis), j[x]);
      CommitsRecordNothing(j, s, x);
    }
  }

  lemma CommitsRecordNothing(j: Journal, s: Serial, x: nat)
    requires Fits(j, s) && s.session.Some? && s.session.value.pc.Apply?
    ensures forall cursors :: CommitBatch(j, s.session.value.pc.next, cursors, s.db).recorded == s.db.recorded
  {
  }

  /** Once passed by, a migration is never run, whatever the sessions after that do. */
  lemma {:induction false} PassedByForGood(j: Journal, schedule: seq<Action>, more: seq<Action>, x: nat)
    requires x < |j| && IsPassedBy(j, Run(j, schedule), x)
    ensures IsPassedBy(j, Run(j, schedule + more), x)
    decreases |more|
  {
    hide IsPassedBy, Step;
    if more == [] {
      assert schedule + more == schedule;
    } else {
      var before := more[..|more| - 1];
      PassedByForGood(j, schedule, before, x);
      assert (schedule + more)[..|schedule + more| - 1] == schedule + before;
      StepPassesBy(j, Run(j, schedule + before), more[|more| - 1], x);
    }
  }

  /**
   * If one entry's `when` is not above the entry before it, a crash between the
   * two makes the next run succeed without the later one, and no run after that
   * executes any statement of it.
   */
  lemma CrashLosesMigration(j: Journal, i: nat) returns (schedule: seq<Action>)
    requires i + 1 < |j| && j[i + 1].folderMillis <= j[i].folderMillis
    ensures At(Run(j, schedule), |j|, Unlock) && |Run(j, schedule).db.recorded| < |j|
    ensures forall more :: NeverRan(j, Run(j, schedule + more).db.log, i + 1)
  {
    hide NeverRan, Step;
    var crashed := CrashPassesBy(j, i);
    var lastAt := LatestAt(Run(j, crashed).db.recorded);
    schedule := NextRunSucceeds(j, crashed, lastAt, i + 2);
    assert schedule == crashed + schedule[|crashed|..];
    PassedByForGood(j, crashed, schedule[|crashed|..], i + 1);
    forall more
      ensures NeverRan(j, Run(j, schedule + more).db.log, i + 1)
    {
      PassedByForGood(j, schedule, more, i + 1);
    }
  }

  /** A first run dies with `i + 1` migrations recorded. */
  lemma CrashPassesBy(j: Journal, i: nat) returns (schedule: seq<Action>)
    requires i + 1 < |j| && j[i + 1].folderMillis <= j[i].folderMillis
    ensures Run(j, schedule).session.None? && |Run(j, schedule).db.recorded| == i + 1
    ensures forall k :: 0 <= k < i + 2 ==> Skips(LatestAt(Run(j, schedule).db.recorded), j[k])
    ensures IsPassedBy(j, Run(j, schedule), i + 1)
  {
    hide NeverRan, LatestAt;
    schedule := FreshRunReaches(j, i + 1);
    var rows := Run(j, schedule).db.recorded;
    forall k | 0 <= k < i + 2
      ensures Skips(LatestAt(rows), j[k])
    {
      LatestIsUpperBound(rows, if k <= i then k else i);
    }
    schedule := RunMore(j, schedule, Crash);
  }

  /** The next run passes by what the watermark has reached, and succeeds. */
  lemma NextRunSucceeds(j: Journal, schedule: seq<Action>, lastAt: Option<int>, passed: nat)
    returns (longer: seq<Action>)
    requires Run(j, schedule).session.None? && lastAt == LatestAt(Run(j, schedule).db.recorded)
    requires passed <= |j| && forall k :: 0 <= k < passed ==> Skips(lastAt, j[k])
    ensures At(Run(j, longer), |j|, Unlock) && schedule <= longer
    ensures |Run(j, longer).db.recorded| <= |Run(j, schedule).db.recorded| + (|j| - passed)
  {
    hide LatestAt;
    longer := RunMore(j, schedule, Begin(|j|));
    longer := RunMore(j, longer, Advance);
    longer := ScanSkips(j, longer, lastAt, passed);
    longer := ScanFinishes(j, longer, |j|, lastAt, passed);
  }

  lemma {:induction false} IncreasingFromNeighbours(j: Journal, a: nat, b: nat)
    requires forall i :: 0 <= i && i + 1 < |j| ==> j[i].folderMillis < j[i + 1].folderMillis
    requires a < b < |j|
    ensures j[a].folderMillis < j[b].folderMillis
  {
    if a + 1 < b {
      IncreasingFromNeighbours(j, a, b - 1);
    }
  }

  /** Recovery works for every crash schedule exactly when the journal's `when` values strictly increase. */
  lemma RecoversIffIncreasing(j: Journal)
    ensures AlwaysRecovers(j) <==> StrictlyIncreasing(j)
  {
    if StrictlyIncreasing(j) {
      forall schedule | At(Run(j, schedule), |j|, Unlock)
        ensures |Run(j, schedule).db.recorded| == |j|
      {
        var g := RunIsGood(j, schedule);
      }
    } else if i :| 0 <= i && i + 1 < |j| && j[i + 1].folderMillis <= j[i].folderMillis {
      var schedule := CrashLosesMigration(j, i);
    } else {
      forall a, b | 0 <= a < b < |j|
        ensures j[a].folderMillis < j[b].folderMillis
      {
        IncreasingFromNeighbours(j, a, b);
      }
    }
  }
}
