/**
 * Any number of migration runners, each on its own database session, with
 * their steps interleaved in any order. The advisory lock belongs to a session
 * and is dropped when that session dies.
 */
module MigrationInterleaving {
  import opened Common
  import opened MigrationModel

  /** `Inside` is between `pg_try_advisory_lock` answering yes and `pg_advisory_unlock`. */
  datatype Phase = Waiting | Inside(pc: Pc) | Gone

  datatype Runner = Runner(len: nat, phase: Phase)

  datatype World = World(db: Db, lock: Option<nat>, runners: map<nat, Runner>, crashes: nat)

  /** A runner can be killed between two effects, or inside one. */
  datatype Move = Launch(id: nat, len: nat) | Go(id: nat) | Kill(id: nat) | Break(id: nat)

  const START := World(FRESH_DB, None, map[], 0)

  predicate RunnersFit(j: Journal, w: World) {
    forall id :: id in w.runners ==>
      var r := w.runners[id];
      r.len <= |j| && (r.phase.Inside? ==> PcFits(j, r.len, r.phase.pc))
  }

  function ReleaseIfOwner(lock: Option<nat>, id: nat): Option<nat> {
    if lock == Some(id) then None else lock
  }

  /** A move depends only on the runner's own position and the lock row, never on other runners. */
  function Next(j: Journal, w: World, move: Move): (w': World)
    requires RunnersFit(j, w)
    ensures RunnersFit(j, w')
  {
    match move
    case Launch(id, len) =>
      if id in w.runners || len > |j| then w
      else w.(runners := w.runners[id := Runner(len, Waiting)])
    case Go(id) =>
      if id !in w.runners then w
      else
        var Runner(len, phase) := w.runners[id];
        (match phase
         case Gone => w
         case Waiting =>
           if w.lock.None?
           then w.(lock := Some(id), runners := w.runners[id := Runner(len, Inside(Watermark))])
           else w.(runners := w.runners[id := Runner(len, Gone)])
         case Inside(pc) =>
           if pc.Unlock?
           then w.(lock := ReleaseIfOwner(w.lock, id), runners := w.runners[id := Runner(len, Gone)])
           else
             var (pc', db') := Perform(j, len, pc, w.db);
             w.(db := db', runners := w.runners[id := Runner(len, Inside(pc'))]))
    case Kill(id) =>
      if id !in w.runners || w.runners[id].phase.Gone? then w
      else
        World(w.db, ReleaseIfOwner(w.lock, id),
              w.runners[id := w.runners[id].(phase := Gone)], w.crashes + 1)
    case Break(id) =>
      if id !in w.runners || !w.runners[id].phase.Inside? then w
      else
        World(Broken(j, w.runners[id].len, w.runners[id].phase.pc, w.db), ReleaseIfOwner(w.lock, id),
              w.runners[id := w.runners[id].(phase := Gone)], w.crashes + 1)
  }

  function Play(j: Journal, moves: seq<Move>): (w: World)
    ensures RunnersFit(j, w)
  {
    if moves == [] then START
    else Next(j, Play(j, moves[..|moves| - 1]), moves[|moves| - 1])
  }

  predicate IsInside(w: World, id: nat) {
    id in w.runners && w.runners[id].phase.Inside?
  }

  /** The lock is held exactly by the runner that is inside, so at most one is. */
  ghost predicate LockHeldInside(w: World) {
    forall id: nat :: IsInside(w, id) <==> w.lock == Some(id)
  }

  lemma NextKeepsLock(j: Journal, w: World, move: Move)
    requires RunnersFit(j, w) && LockHeldInside(w)
    ensures LockHeldInside(Next(j, w, move))
  {
    var w' := Next(j, w, move);
    forall id: nat
      ensures IsInside(w', id) <==> w'.lock == Some(id)
    {
      assert IsInside(w, id) <==> w.lock == Some(id);
      assert IsInside(w, move.id) <==> w.lock == Some(move.id);
    }
  }

  lemma {:induction false} PlayKeepsLock(j: Journal, moves: seq<Move>)
    ensures LockHeldInside(Play(j, moves))
  {
    if moves != [] {
      var before := moves[..|moves| - 1];
      PlayKeepsLock(j, before);
      NextKeepsLock(j, Play(j, before), moves[|moves| - 1]);
    }
  }

  /** Whatever the interleaving, at most one runner is between lock and unlock. */
  lemma MutualExclusion(j: Journal, moves: seq<Move>, a: nat, b: nat)
    requires IsInside(Play(j, moves), a) && IsInside(Play(j, moves), b)
    ensures a == b
  {
    PlayKeepsLock(j, moves);
    var w := Play(j, moves);
    assert w.lock == Some(a) && w.lock == Some(b);
  }

  /** A runner that finds the lock taken stops, and the tables and the lock are as they were. */
  lemma RefusedChangesNothing(j: Journal, moves: seq<Move>, id: nat)
    requires var w := Play(j, moves); id in w.runners && w.lock.Some? && w.lock != Some(id)
    ensures var w := Play(j, moves); var w' := Next(j, w, Go(id));
      w'.db == w.db && w'.lock == w.lock && w'.runners[id].phase.Gone?
  {
    PlayKeepsLock(j, moves);
    assert !IsInside(Play(j, moves), id);
  }

  // ---- Every interleaving is some serial schedule --------------------------------

  /** What a move does to the one session that holds the lock. */
  function Serialised(w: World, move: Move): seq<Action> {
    match move
    case Launch(_, _) => []
    case Go(id) =>
      if id !in w.runners then []
      else (match w.runners[id].phase
            case Waiting => if w.lock.None? then [Begin(w.runners[id].len)] else []
            case Inside(_) => [Advance]
            case Gone => [])
    case Kill(id) => if IsInside(w, id) then [Crash] else []
    case Break(id) => if IsInside(w, id) then [Tear] else []
  }

  function Schedule(j: Journal, moves: seq<Move>): seq<Action> {
    if moves == [] then []
    else
      var before := moves[..|moves| - 1];
      Schedule(j, before) + Serialised(Play(j, before), moves[|moves| - 1])
  }

  /** The session of the runner holding the lock. */
  function Holder(w: World): Option<Session> {
    if w.lock.Some? && IsInside(w, w.lock.value)
    then Some(Session(w.runners[w.lock.value].len, w.runners[w.lock.value].phase.pc))
    else None
  }

  ghost predicate Matches(w: World, s: Serial) {
    w.db == s.db && Holder(w) == s.session && s.crashes <= w.crashes
  }

  lemma NextMatches(j: Journal, w: World, move: Move, s: Serial)
    requires RunnersFit(j, w) && LockHeldInside(w) && Fits(j, s) && Matches(w, s)
    ensures var a := Serialised(w, move); var w' := Next(j, w, move);
      if a == [] then Matches(w', s) else |a| == 1 && Matches(w', Step(j, s, a[0]))
  {
    assert IsInside(w, move.id) <==> w.lock == Some(move.id);
    assert w.lock.Some? ==> IsInside(w, w.lock.value);
  }

  /**
   * Serialisation: any interleaving of runners commits the same history, and
   * leaves the same tables, as running one session at a time, each to its end
   * or to its death.
   */
  lemma {:induction false} InterleavingIsSerial(j: Journal, moves: seq<Move>)
    ensures Matches(Play(j, moves), Run(j, Schedule(j, moves)))
  {
    if moves != [] {
      var before, move := moves[..|moves| - 1], moves[|moves| - 1];
      InterleavingIsSerial(j, before);
      PlayKeepsLock(j, before);
      NextMatches(j, Play(j, before), move, Run(j, Schedule(j, before)));
      var a := Serialised(Play(j, before), move);
      var schedule := Schedule(j, before) + a;
      if a == [] {
        assert schedule == Schedule(j, before);
      } else {
        assert schedule[..|schedule| - 1] == Schedule(j, before);
      }
    }
  }
}
