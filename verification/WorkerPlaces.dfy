/**
 * No job is ever stuck: an active job has exactly one activation holding it,
 * a key pause ends within its bound, and a crash loses no job.
 */
module WorkerPlaces {
  import opened Common
  import opened TenantGates
  import opened WorkerModel
  import opened WorkerLog

  /** An activation holds its job until the job is delayed, and pauses it for no longer than the bound. */
  ghost predicate ActHolds(w: World, a: nat) {
    a in w.acts ==>
      && a < w.nextAct
      && (w.acts[a].stage.Moving? ==> w.acts[a].stage.wake <= w.now + TENANT_KEY_PAUSE_MS)
      && (!w.acts[a].stage.Remembering? ==>
            && w.acts[a].key in w.jobs
            && w.jobs[w.acts[a].key].place == Running(a)
            && w.jobs[w.acts[a].key].data == w.acts[a].data)
  }

  ghost predicate JobHeld(w: World, key: JobKey) {
    key in w.jobs && w.jobs[key].place.Running? ==>
      && w.jobs[key].place.act in w.acts
      && w.acts[w.jobs[key].place.act].key == key
      && !w.acts[w.jobs[key].place.act].stage.Remembering?
  }

  ghost predicate Holders(w: World) {
    (forall a :: ActHolds(w, a)) && (forall key :: JobHeld(w, key))
  }

  /** What one call of an activation may change: itself, and the job it holds. */
  ghost predicate Moves(w: World, w': World, a: nat)
    requires a in w.acts
  {
    var key := w.acts[a].key;
    && w'.now == w.now && w'.nextAct == w.nextAct
    && (forall b :: b != a ==> (b in w'.acts <==> b in w.acts) && (b in w.acts ==> w'.acts[b] == w.acts[b]))
    && (forall other :: other != key ==>
          (other in w'.jobs <==> other in w.jobs) && (other in w.jobs ==> w'.jobs[other] == w.jobs[other]))
    && (key in w'.jobs <==> key in w.jobs)
    && (!w.acts[a].stage.Remembering? ==> w'.ledger == w.ledger && w'.flights == w.flights)
    && (a in w'.acts && w'.acts[a].stage.Remembering? ==>
          w.acts[a].stage.Moving? && w'.acts[a] == w.acts[a].(stage := Remembering))
    && (a in w'.acts && !w'.acts[a].stage.Remembering? ==>
          && w'.acts[a] == w.acts[a].(stage := w'.acts[a].stage)
          && (w'.acts[a].stage.Moving? ==> w'.acts[a].stage.wake <= w.now + TENANT_KEY_PAUSE_MS)
          && !w.acts[a].stage.Remembering?
          && key in w.jobs && w'.jobs[key] == w.jobs[key])
    && (!(a in w'.acts && !w'.acts[a].stage.Remembering?) ==>
          if w.acts[a].stage.Remembering? then w'.jobs == w.jobs
          else key in w.jobs && !w'.jobs[key].place.Running?)
  }

  lemma LoggedMoves(w: World, w': World, a: nat, e: Event)
    requires a in w.acts && Moves(w, w', a)
    ensures Moves(w, Logged(w', e), a)
  {
  }

  lemma EndAtMoves(w: World, a: nat, place: Place)
    requires a in w.acts && w.acts[a].key in w.jobs && ActHolds(w, a)
    requires !place.Running? && !w.acts[a].stage.Remembering?
    ensures Moves(w, EndAt(w, a, place), a)
  {
  }

  lemma PutStageMoves(w: World, a: nat, stage: Stage)
    requires a in w.acts && ActHolds(w, a) && !stage.Remembering? && !w.acts[a].stage.Remembering?
    requires stage.Moving? ==> stage.wake <= w.now + TENANT_KEY_PAUSE_MS
    ensures Moves(w, PutStage(w, a, stage), a)
  {
  }

  lemma DelayMoves(w: World, a: nat, wake: int)
    requires a in w.acts && w.acts[a].key in w.jobs && ActHolds(w, a) && w.acts[a].stage.Moving?
    ensures Moves(w, PutStage(PutJob(w, w.acts[a].key, Delayed(wake)), a, Remembering), a)
  {
  }

  lemma NoteMoves(w: World, a: nat, owner: Owner, ref: string)
    requires a in w.acts && ActHolds(w, a) && w.acts[a].stage.Remembering?
    ensures Moves(w, Note(w, owner, ref).(acts := w.acts - {a}), a)
  {
    hide Refs;
  }

  lemma StuckMoves(w: World, a: nat)
    requires a in w.acts && ActHolds(w, a) && !w.acts[a].stage.Remembering?
    ensures Moves(w, w, a)
  {
  }

  lemma FailMoves(w: World, a: nat, err: Failure, retryDelay: nat)
    requires a in w.acts && w.acts[a].key in w.jobs && ActHolds(w, a) && !w.acts[a].stage.Remembering?
    ensures Moves(w, Fail(w, a, err, retryDelay), a)
  {
    hide Moves, DeadLetters, Retries, Logged;
    var act := w.acts[a];
    var job := w.jobs[act.key];
    var spent := job.(attemptsMade := job.attemptsMade + 1,
                      place := if Retries(job.attemptsMade, job.attempts)
                               then PlaceAfter(w.now, retryDelay) else Failed);
    var ended := w.(jobs := w.jobs[act.key := spent], acts := w.acts - {a});
    SpentMoves(w, a, spent);
    var threw := Logged(ended, Threw(a, act.key, SiteOf(act.stage), err));
    var letter := Letter(act.proc, act.key, job.attempts);
    LoggedMoves(w, ended, a, Threw(a, act.key, SiteOf(act.stage), err));
    LetterMoves(w, threw, a, threw.letters[a := letter]);
    LoggedMoves(w, threw.(letters := threw.letters[a := letter]), a, LetterDue(a, letter));
  }

  lemma LetterMoves(w: World, w': World, a: nat, letters: map<nat, Letter>)
    requires a in w.acts && Moves(w, w', a)
    ensures Moves(w, w'.(letters := letters), a)
  {
  }

  lemma SpentMoves(w: World, a: nat, spent: Job)
    requires a in w.acts && w.acts[a].key in w.jobs && ActHolds(w, a)
    requires !spent.place.Running? && !w.acts[a].stage.Remembering?
    ensures Moves(w, w.(jobs := w.jobs[w.acts[a].key := spent], acts := w.acts - {a}), a)
  {
  }

  lemma EnterMoves(w: World, a: nat)
    requires a in w.acts && w.acts[a].key in w.jobs && ActHolds(w, a) && w.acts[a].stage.Enter?
    ensures Moves(w, EnterGate(w, a), a)
  {
    hide Moves, Logged, IsPlatformAuditJob, AcceptsWork, OrganisationOf, OuterLook, PutStage, EndAt;
    PutStageMoves(w, a, Processor);
    PutStageMoves(w, a, KeyGate);
    EndAtMoves(w, a, Completed);
    StuckMoves(w, a);
    LoggedMoves(w, PutStage(w, a, KeyGate), a, OuterLook(w, a, w.acts[a].data));
    LoggedMoves(w, EndAt(w, a, Completed), a, OuterLook(w, a, w.acts[a].data));
  }

  lemma ReadKeyMoves(w: World, a: nat)
    requires a in w.acts && w.acts[a].key in w.jobs && ActHolds(w, a) && w.acts[a].stage.KeyGate?
    ensures Moves(w, ReadKey(w, a), a)
  {
    hide Moves, Logged, KeyStatusOf, OrganisationOf, TenantJobAction, PutStage;
    var status := KeyStatusOf(w, OrganisationOf(w.acts[a].data));
    var stage := if TenantJobAction(status) == RunJob then Processor else Moving(w.now + TENANT_KEY_PAUSE_MS);
    PutStageMoves(w, a, stage);
    LoggedMoves(w, PutStage(w, a, stage), a, KeyRead(a, OrganisationOf(w.acts[a].data), status));
  }

  lemma MoveMoves(w: World, a: nat)
    requires a in w.acts && w.acts[a].key in w.jobs && ActHolds(w, a) && w.acts[a].stage.Moving?
    ensures Moves(w, MoveToDelayed(w, a, w.acts[a].stage.wake), a)
  {
    hide Moves, Logged, OrganisationOf, PutStage;
    var act := w.acts[a];
    DelayMoves(w, a, act.stage.wake);
    LoggedMoves(w, PutStage(PutJob(w, act.key, Delayed(act.stage.wake)), a, Remembering), a,
                Paused(a, act.key, OrganisationOf(act.data), act.stage.wake, w.now));
  }

  lemma RememberMoves(w: World, a: nat)
    requires a in w.acts && ActHolds(w, a) && w.acts[a].stage.Remembering?
    ensures Moves(w, RememberPausedJob(w, a), a)
  {
    hide Moves, Logged, OrganisationOf, MakeRef, Refs, Note;
    var act := w.acts[a];
    var owner := (act.proc, OrganisationOf(act.data));
    var ref := MakeRef(act.key.queue, act.key.id);
    NoteMoves(w, a, owner, ref);
    LoggedMoves(w, Note(w, owner, ref).(acts := w.acts - {a}), a, Noted(owner, ref));
  }

  lemma InnerMoves(w: World, a: nat)
    requires a in w.acts && w.acts[a].key in w.jobs && ActHolds(w, a) && w.acts[a].stage.Processor?
    ensures Moves(w, InnerGate(w, a), a)
  {
    hide Moves, Logged, IsPlatformAuditJob, InnerActive, InnerLook, AUDIT_VERIFY, PutStage, EndAt;
    var act := w.acts[a];
    var started := BodyStarted(a, act.key, act.data, IsPlatformAuditJob(act.key.queue, act.data));
    var body := PutStage(w, a, Body);
    PutStageMoves(w, a, Body);
    LoggedMoves(w, body, a, started);
    LoggedMoves(w, body, a, InnerLook(w, a, act.data));
    LoggedMoves(w, Logged(body, InnerLook(w, a, act.data)), a, started);
    PutStageMoves(w, a, Rejecting);
    LoggedMoves(w, PutStage(w, a, Rejecting), a, InnerLook(w, a, act.data));
  }

  lemma ErrorMoves(w: World, a: nat, err: Failure, retryDelay: nat)
    requires a in w.acts && w.acts[a].key in w.jobs && ActHolds(w, a) && !w.acts[a].stage.Remembering?
    ensures Moves(w, OnError(w, a, err, retryDelay), a)
  {
    hide Moves, Logged, Fail, HasLimiter, MALWARE_SCAN, PutStage, EndAt;
    var act := w.acts[a];
    PutStageMoves(w, a, Moving(w.now + TENANT_KEY_PAUSE_MS));
    LoggedMoves(w, PutStage(w, a, Moving(w.now + TENANT_KEY_PAUSE_MS)), a,
                Threw(a, act.key, SiteOf(act.stage), err));
    PutStageMoves(w, a, RateLimiting);
    LoggedMoves(w, PutStage(w, a, RateLimiting), a, Threw(a, act.key, SiteOf(act.stage), err));
    FailMoves(w, a, err, retryDelay);
  }

  lemma LostMoveMoves(w: World, a: nat, err: Failure)
    requires a in w.acts && w.acts[a].key in w.jobs && ActHolds(w, a) && w.acts[a].stage.Moving?
    ensures Moves(w, LoseMove(w, a, w.acts[a].stage.wake, err), a)
  {
    hide Moves, Logged, OrganisationOf, EndAt;
    var act := w.acts[a];
    var paused := Paused(a, act.key, OrganisationOf(act.data), act.stage.wake, w.now);
    var ended := EndAt(w, a, Delayed(act.stage.wake));
    EndAtMoves(w, a, Delayed(act.stage.wake));
    LoggedMoves(w, ended, a, paused);
    LoggedMoves(w, Logged(ended, paused), a, Threw(a, act.key, Unheld, err));
  }

  lemma ProceedMoves(w: World, a: nat)
    requires a in w.acts && w.acts[a].key in w.jobs && ActHolds(w, a)
    ensures Moves(w, Proceed(w, a), a)
  {
    hide Moves, EnterGate, ReadKey, MoveToDelayed, RememberPausedJob, InnerGate, EndAt;
    match w.acts[a].stage
    case Enter => EnterMoves(w, a);
    case KeyGate => ReadKeyMoves(w, a);
    case Moving(_) => MoveMoves(w, a);
    case Remembering => RememberMoves(w, a);
    case Processor => InnerMoves(w, a);
    case Rejecting => EndAtMoves(w, a, Completed);
    case Body => EndAtMoves(w, a, Completed);
    case RateLimiting => EndAtMoves(w, a, Waiting);
  }

  lemma GoMoves(w: World, a: nat, outcome: Outcome)
    requires a in w.acts && ActHolds(w, a)
    ensures Moves(w, DoGo(w, a, outcome), a)
  {
    hide Moves, Proceed, OnError, LoseMove, RememberPausedJob;
    if w.acts[a].stage.Remembering? {
      RememberMoves(w, a);
    } else if outcome.Return? {
      ProceedMoves(w, a);
    } else if IsLostMove(w.acts[a].stage, outcome) {
      LostMoveMoves(w, a, outcome.err);
    } else {
      ErrorMoves(w, a, outcome.err, outcome.retryDelay);
    }
  }

  lemma UnknownGo(w: World, a: nat, outcome: Outcome)
    requires a !in w.acts
    ensures DoGo(w, a, outcome) == w
  {
    hide Proceed, OnError, LoseMove, RememberPausedJob;
  }

  lemma FailEnds(w: World, a: nat, err: Failure, retryDelay: nat)
    requires a in w.acts && w.acts[a].key in w.jobs
    ensures a !in Fail(w, a, err, retryDelay).acts && Fail(w, a, err, retryDelay).nextAct == w.nextAct
  {
    hide SiteOf, DeadLetters, Retries;
  }

  lemma ErrorStage(w: World, a: nat, err: Failure, retryDelay: nat)
    requires a in w.acts && w.acts[a].key in w.jobs
    ensures var w' := OnError(w, a, err, retryDelay);
      w'.nextAct == w.nextAct && (a in w'.acts ==> w'.acts[a].stage.Moving? || w'.acts[a].stage.RateLimiting?)
  {
    hide Fail, SiteOf, HasLimiter, MALWARE_SCAN;
    FailEnds(w, a, err, retryDelay);
  }

  lemma GoKeepsHolders(w: World, a: nat, outcome: Outcome)
    requires Holders(w)
    ensures Holders(DoGo(w, a, outcome))
  {
    hide DoGo;
    assert ActHolds(w, a);
    if a !in w.acts {
      UnknownGo(w, a, outcome);
    } else {
      GoMoves(w, a, outcome);
      var w' := DoGo(w, a, outcome);
      assert JobHeld(w, w.acts[a].key);
      forall b
        ensures ActHolds(w', b)
      {
        assert ActHolds(w, b);
      }
      forall key
        ensures JobHeld(w', key)
      {
        assert JobHeld(w, key);
      }
    }
  }

  lemma CrashKeepsHolders(w: World, proc: nat)
    requires Holders(w)
    ensures Holders(DoCrash(w, proc))
  {
    var w' := DoCrash(w, proc);
    forall b
      ensures ActHolds(w', b)
    {
      assert ActHolds(w, b);
    }
    forall key
      ensures JobHeld(w', key)
    {
      assert JobHeld(w, key);
    }
  }

  /** Nothing but the jobs that are not running, and what no activation reads, has changed. */
  ghost predicate KeepsActive(w: World, w': World) {
    && w'.acts == w.acts && w'.nextAct == w.nextAct && w.now <= w'.now
    && (forall key :: key in w.jobs && w.jobs[key].place.Running? ==> key in w'.jobs && w'.jobs[key] == w.jobs[key])
    && (forall key :: key in w'.jobs && w'.jobs[key].place.Running? ==> key in w.jobs && w'.jobs[key] == w.jobs[key])
  }

  lemma ActiveKept(w: World, w': World)
    requires Holders(w) && KeepsActive(w, w')
    ensures Holders(w')
  {
    forall b
      ensures ActHolds(w', b)
    {
      assert ActHolds(w, b);
    }
    forall key
      ensures JobHeld(w', key)
    {
      assert JobHeld(w, key);
    }
  }

  lemma AddKeepsActive(w: World, key: JobKey, name: string, data: Json, attempts: Option<int>, delay: nat)
    ensures KeepsActive(w, DoAdd(w, key, name, data, attempts, delay))
  {
    hide QUEUE_NAMES;
  }

  lemma RemoveKeepsActive(w: World, key: JobKey)
    ensures KeepsActive(w, DoRemove(w, key))
  {
  }

  lemma WakeKeepsActive(w: World, key: JobKey)
    ensures KeepsActive(w, DoWake(w, key))
  {
  }

  /** Looking a ref up changes the books and the log alone. */
  predicate SameButBooks(w: World, w': World) {
    w' == w.(ledger := w'.ledger, flights := w'.flights, log := w'.log)
  }

  lemma LookUpOneFrame(w: World, owner: Owner, rest: Flight, ref: string, up: bool)
    ensures SameButBooks(w, LookUpOne(w, owner, rest, ref, up))
  {
    hide SplitRef, KeyOf, Refs;
  }

  lemma LookUpFrame(w: World, owner: Owner, ref: string, up: bool)
    ensures SameButBooks(w, DoLookUp(w, owner, ref, up))
  {
    hide LookUpOne;
    if CanLookUp(w, owner, ref) {
      LookUpOneFrame(w, owner, w.flights[owner].(pending := w.flights[owner].pending - {ref}), ref, up);
    }
  }

  lemma LookUpKeepsActive(w: World, owner: Owner, ref: string, up: bool)
    ensures KeepsActive(w, DoLookUp(w, owner, ref, up))
  {
    hide DoLookUp;
    LookUpFrame(w, owner, ref, up);
  }

  lemma TakeKeepsActive(w: World, owner: Owner)
    ensures KeepsActive(w, DoTake(w, owner))
    ensures KeepsActive(w, DoFinish(w, owner))
  {
    hide Refs;
  }

  /** A promotion moves at most its own job, from delayed to waiting, and then says so. */
  ghost predicate PromotesAtMost(w: World, w': World, ref: string) {
    && w'.acts == w.acts && w'.nextAct == w.nextAct && w'.now == w.now
    && (w'.jobs == w.jobs ||
        (&& SplitRef(ref).Some? && KeyOf(ref) in w.jobs && w.jobs[KeyOf(ref)].place.Delayed?
         && w'.jobs == w.jobs[KeyOf(ref) := w.jobs[KeyOf(ref)].(place := Waiting)]
         && w'.log != [] && w'.log[..|w'.log| - 1] == w.log
         && (w'.log[|w'.log| - 1].Promoted? || w'.log[|w'.log| - 1].PromotedUnseen?)
         && w'.log[|w'.log| - 1].ref == ref))
  }

  lemma PromoteOnePromotes(w: World, owner: Owner, rest: Flight, ref: string, reply: Reply)
    ensures PromotesAtMost(w, PromoteOne(w, owner, rest, ref, reply), ref)
  {
    hide SplitRef, Refs;
  }

  lemma PromotePromotes(w: World, owner: Owner, reply: Reply) returns (ref: string)
    ensures PromotesAtMost(w, DoPromote(w, owner, reply), ref)
  {
    hide PromoteOne, PromotesAtMost;
    ref := "";
    if owner in w.flights && w.flights[owner].current.Some? {
      ref := w.flights[owner].current.value;
      PromoteOnePromotes(w, owner, w.flights[owner].(current := None), ref, reply);
    } else {
      NothingPromoted(w, ref);
    }
  }

  lemma NothingPromoted(w: World, ref: string)
    ensures PromotesAtMost(w, w, ref)
  {
  }

  lemma PromoteKeepsActive(w: World, owner: Owner, reply: Reply)
    ensures KeepsActive(w, DoPromote(w, owner, reply))
  {
    hide DoPromote, SplitRef;
    var ref := PromotePromotes(w, owner, reply);
  }

  lemma PickKeepsHolders(w: World, key: JobKey, proc: nat)
    requires Holders(w)
    ensures Holders(DoPick(w, key, proc))
  {
    assert ActHolds(w, w.nextAct);
    var w' := DoPick(w, key, proc);
    forall b
      ensures ActHolds(w', b)
    {
      assert ActHolds(w, b);
    }
    forall other
      ensures JobHeld(w', other)
    {
      assert JobHeld(w, other);
    }
  }

  lemma OthersKeepActive(w: World, action: Action)
    requires !action.Go? && !action.Pick? && !action.Crash?
    ensures KeepsActive(w, Next(w, action))
  {
    hide KeepsActive, DoAdd, DoRemove, DoWake, DoTake, DoLookUp, DoPromote, DoFinish;
    match action
    case AddJob(key, name, data, attempts, delay) => AddKeepsActive(w, key, name, data, attempts, delay);
    case RemoveJob(key) => RemoveKeepsActive(w, key);
    case Wake(key) => WakeKeepsActive(w, key);
    case Take(owner) => TakeKeepsActive(w, owner);
    case LookUp(owner, ref, up) => LookUpKeepsActive(w, owner, ref, up);
    case Promote(owner, reply) => PromoteKeepsActive(w, owner, reply);
    case Finish(owner) => TakeKeepsActive(w, owner);
    case _ => StatusKeepsActive(w, action);
  }

  lemma StatusKeepsActive(w: World, action: Action)
    requires action.SetOrganisation? || action.SetKey? || action.Tick? || action.WriteLetter?
    ensures KeepsActive(w, Next(w, action))
  {
  }

  lemma NextKeepsHolders(w: World, action: Action)
    requires Holders(w)
    ensures Holders(Next(w, action))
  {
    hide Holders, KeepsActive, DoPick, DoGo, DoCrash;
    match action
    case Pick(key, proc) => PickKeepsHolders(w, key, proc);
    case Go(a, outcome) => GoKeepsHolders(w, a, outcome);
    case Crash(proc) => CrashKeepsHolders(w, proc);
    case _ =>
      OthersKeepActive(w, action);
      ActiveKept(w, Next(w, action));
  }

  lemma {:induction false} RunHolds(actions: seq<Action>)
    ensures Holders(Run(EMPTY_WORLD, actions))
  {
    hide Next;
    if actions != [] {
      RunHolds(actions[..|actions| - 1]);
      NextKeepsHolders(Run(EMPTY_WORLD, actions[..|actions| - 1]), actions[|actions| - 1]);
    }
  }

  // ---- Key pauses -------------------------------------------------------------

  predicate ShortPause(e: Event) {
    e.Paused? ==> e.wake <= e.at + TENANT_KEY_PAUSE_MS
  }

  lemma GoPausesShortly(w: World, a: nat, outcome: Outcome)
    requires Holders(w)
    ensures forall e :: e in DoGo(w, a, outcome).log ==> e in w.log || ShortPause(e)
  {
    hide Holders, DoGo, IsPlatformAuditJob, AcceptsWork, OrganisationOf, InnerActive, KeyStatusOf, MakeRef,
         AUDIT_VERIFY, DeadLetters, Excused;
    GoLogs(w, a, outcome);
    HolderOf(w, a);
  }

  lemma HolderOf(w: World, a: nat)
    requires Holders(w)
    ensures ActHolds(w, a)
  {
  }

  lemma NextPausesShortly(w: World, action: Action)
    requires Holders(w)
    ensures forall e :: e in Next(w, action).log ==> e in w.log || ShortPause(e)
  {
    hide Holders, DoGo;
    if action.Go? {
      GoPausesShortly(w, action.act, action.outcome);
    } else {
      hide Next;
      OthersLog(w, action);
    }
  }

  /** Every key pause, in every run, wakes its job no later than the bound after it was delayed. */
  lemma {:induction false} PausesAreShort(actions: seq<Action>)
    ensures forall e :: e in Run(EMPTY_WORLD, actions).log && e.Paused? ==> e.wake <= e.at + 30_000
  {
    hide Next;
    if actions != [] {
      PausesAreShort(actions[..|actions| - 1]);
      RunHolds(actions[..|actions| - 1]);
      NextPausesShortly(Run(EMPTY_WORLD, actions[..|actions| - 1]), actions[|actions| - 1]);
    }
  }

  // ---- Crashes ----------------------------------------------------------------

  /**
   * A crash loses no job and delays none: exactly the jobs its process was
   * running are waiting again, with the attempts they had, and what still runs
   * is held by an activation of another process; every delayed job keeps its
   * wake time although the process's ledger is gone.
   */
  lemma CrashLosesNoJob(actions: seq<Action>, proc: nat, key: JobKey)
    ensures
      var w := Run(EMPTY_WORLD, actions);
      var w' := DoCrash(w, proc);
      && w'.jobs.Keys == w.jobs.Keys
      && (key in w.jobs ==>
            && w'.jobs[key] == w.jobs[key].(place := w'.jobs[key].place)
            && (!w.jobs[key].place.Running? ==> w'.jobs[key].place == w.jobs[key].place)
            && (w'.jobs[key].place != w.jobs[key].place ==> w'.jobs[key].place == Waiting)
            && (w'.jobs[key].place.Running? ==>
                  && w'.jobs[key].place.act in w'.acts
                  && w'.acts[w'.jobs[key].place.act].key == key
                  && w'.acts[w'.jobs[key].place.act].proc != proc))
      && (forall owner: Owner :: owner in w'.ledger ==> owner.0 != proc)
  {
    hide Run;
    RunHolds(actions);
    assert JobHeld(Run(EMPTY_WORLD, actions), key);
  }

  /** The step promoted this job, through a ref of its own. */
  ghost predicate LogsPromotion(w: World, w': World, key: JobKey) {
    && w'.log != [] && w'.log[..|w'.log| - 1] == w.log
    && (w'.log[|w'.log| - 1].Promoted? || w'.log[|w'.log| - 1].PromotedUnseen?)
    && SplitRef(w'.log[|w'.log| - 1].ref) == Some((key.queue, key.id))
  }

  /** Nothing but its own time or a promotion takes a delayed job out of its delay. */
  lemma DelayedUntilDue(w: World, action: Action, key: JobKey)
    requires Holders(w) && key in w.jobs && w.jobs[key].place.Delayed?
    requires key in Next(w, action).jobs && Next(w, action).jobs[key].place != w.jobs[key].place
    ensures Next(w, action).jobs[key].place == Waiting
    ensures if action.Wake? then w.jobs[key].place.wake <= w.now
      else action.Promote? && LogsPromotion(w, Next(w, action), key)
  {
    hide Holders, DoGo, DoLookUp, DoPromote, SplitRef, LogsPromotion, QUEUE_NAMES;
    if action.Go? {
      GoKeepsDelayed(w, action.act, action.outcome, key);
    } else if action.LookUp? {
      LookUpFrame(w, action.owner, action.ref, action.up);
    } else if action.Promote? {
      PromoteTakes(w, action.owner, action.reply, key);
    }
  }

  lemma GoKeepsDelayed(w: World, a: nat, outcome: Outcome, key: JobKey)
    requires Holders(w) && key in w.jobs && w.jobs[key].place.Delayed?
    ensures key in DoGo(w, a, outcome).jobs && DoGo(w, a, outcome).jobs[key] == w.jobs[key]
  {
    hide Holders, DoGo;
    HolderOf(w, a);
    if a in w.acts {
      GoMoves(w, a, outcome);
    } else {
      UnknownGo(w, a, outcome);
    }
  }

  lemma PromoteTakes(w: World, owner: Owner, reply: Reply, key: JobKey)
    requires key in w.jobs && key in DoPromote(w, owner, reply).jobs
    requires DoPromote(w, owner, reply).jobs[key].place != w.jobs[key].place
    ensures DoPromote(w, owner, reply).jobs[key].place == Waiting
    ensures LogsPromotion(w, DoPromote(w, owner, reply), key)
  {
    hide SplitRef, DoPromote;
    var ref := PromotePromotes(w, owner, reply);
  }
}
