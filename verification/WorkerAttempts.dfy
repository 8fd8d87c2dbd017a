/**
 * Attempt accounting: a job's attempts are its genuine failures, however many
 * pauses, throttles, crashes and promotions a run interleaves with them.
 */
module WorkerAttempts {
  import opened Common
  import opened TenantGates
  import opened WorkerModel
  import opened WorkerLog
  import opened WorkerPlaces
  import opened WorkerGates

  predicate IsGenuine(e: Event, key: JobKey) {
    e.Threw? && e.key == key && !Excused(key.queue, e.site, e.err)
  }

  /** The genuine failures of a job since it was last added. */
  function Failures(log: seq<Event>, key: JobKey): nat {
    if log == [] then 0
    else
      var e := log[|log| - 1];
      if e == Added(key) then 0 else Failures(log[..|log| - 1], key) + if IsGenuine(e, key) then 1 else 0
  }

  lemma FailuresNext(log: seq<Event>, e: Event, key: JobKey)
    ensures Failures(log + [e], key) ==
      if e == Added(key) then 0 else Failures(log, key) + if IsGenuine(e, key) then 1 else 0
  {
    hide IsGenuine;
    assert (log + [e])[..|log|] == log;
  }

  predicate Quiet(es: seq<Event>) {
    forall e :: e in es ==> !e.Added? && !e.Threw?
  }

  lemma {:induction false} QuietEvents(log: seq<Event>, es: seq<Event>, key: JobKey)
    requires Quiet(es)
    ensures Failures(log + es, key) == Failures(log, key)
  {
    if es == [] {
      assert log + es == log;
    } else {
      QuietEvents(log, es[..|es| - 1], key);
      assert log + es == (log + es[..|es| - 1]) + [es[|es| - 1]];
      FailuresNext(log + es[..|es| - 1], es[|es| - 1], key);
    }
  }

  ghost predicate JobAccounted(w: World, key: JobKey) {
    key in w.jobs ==>
      var job := w.jobs[key];
      && job.attemptsMade == Failures(w.log, key)
      && job.attemptsMade <= MaxAttempts(job.attempts)
      && (job.place == Failed <==> job.attemptsMade == MaxAttempts(job.attempts))
  }

  /** The step moved at most this job, and did not fail it. */
  predicate OnlyPlaces(w: World, w': World, key: JobKey) {
    && key in w.jobs && key in w'.jobs
    && w'.jobs == w.jobs[key := w.jobs[key].(place := w'.jobs[key].place)]
    && (w'.jobs[key].place == Failed ==> w.jobs[key].place == Failed)
  }

  lemma EnterPlaces(w: World, a: nat)
    requires a in w.acts && w.acts[a].key in w.jobs && w.acts[a].stage.Enter?
    ensures OnlyPlaces(w, EnterGate(w, a), w.acts[a].key)
  {
    hide IsPlatformAuditJob, AcceptsWork, OrganisationOf;
    assert w.jobs == w.jobs[w.acts[a].key := w.jobs[w.acts[a].key]];
  }

  lemma MovePlaces(w: World, a: nat)
    requires a in w.acts && w.acts[a].key in w.jobs && w.acts[a].stage.Moving?
    ensures OnlyPlaces(w, MoveToDelayed(w, a, w.acts[a].stage.wake), w.acts[a].key)
  {
    hide OrganisationOf;
    assert w.jobs == w.jobs[w.acts[a].key := w.jobs[w.acts[a].key]];
  }

  lemma InnerPlaces(w: World, a: nat)
    requires a in w.acts && w.acts[a].key in w.jobs && w.acts[a].stage.Processor?
    ensures OnlyPlaces(w, InnerGate(w, a), w.acts[a].key)
  {
    hide IsPlatformAuditJob, InnerActive, AUDIT_VERIFY;
    assert w.jobs == w.jobs[w.acts[a].key := w.jobs[w.acts[a].key]];
  }

  lemma ProceedPlaces(w: World, a: nat)
    requires a in w.acts && w.acts[a].key in w.jobs && !w.acts[a].stage.Remembering?
    ensures OnlyPlaces(w, Proceed(w, a), w.acts[a].key)
  {
    hide EnterGate, MoveToDelayed, InnerGate, KeyStatusOf, OrganisationOf, TenantJobAction;
    match w.acts[a].stage
    case Enter => EnterPlaces(w, a);
    case KeyGate => assert w.jobs == w.jobs[w.acts[a].key := w.jobs[w.acts[a].key]];
    case Moving(_) => MovePlaces(w, a);
    case Processor => InnerPlaces(w, a);
    case _ =>
  }

  lemma FailAttempts(w: World, a: nat, err: Failure, retryDelay: nat)
    requires a in w.acts && w.acts[a].key in w.jobs
    ensures var w' := Fail(w, a, err, retryDelay);
      var key := w.acts[a].key;
      && w'.jobs == w.jobs[key := w'.jobs[key]]
      && w'.jobs[key] == w.jobs[key].(attemptsMade := w.jobs[key].attemptsMade + 1, place := w'.jobs[key].place)
      && (w'.jobs[key].place == Failed <==> !Retries(w.jobs[key].attemptsMade, w.jobs[key].attempts))
  {
    hide DeadLetters, Retries, SiteOf;
  }

  lemma ProceedIsQuiet(w: World, a: nat)
    requires a in w.acts
    ensures Quiet(ProceedEvents(w, a))
  {
    hide IsPlatformAuditJob, AcceptsWork, OrganisationOf, InnerActive, KeyStatusOf, MakeRef, AUDIT_VERIFY;
  }

  lemma ProceedKeepsAccount(w: World, a: nat, key: JobKey)
    requires a in w.acts && w.acts[a].key in w.jobs && ActHolds(w, a) && JobAccounted(w, key)
    requires !w.acts[a].stage.Remembering?
    ensures JobAccounted(Proceed(w, a), key)
  {
    hide Proceed, ProceedEvents, Failures, MaxAttempts, Quiet;
    ProceedLogs(w, a);
    ProceedIsQuiet(w, a);
    QuietEvents(w.log, ProceedEvents(w, a), key);
    ProceedPlaces(w, a);
  }

  lemma RememberKeepsAccount(w: World, a: nat, key: JobKey)
    requires a in w.acts && w.acts[a].stage.Remembering? && JobAccounted(w, key)
    ensures JobAccounted(RememberPausedJob(w, a), key)
  {
    hide Failures, MaxAttempts, OrganisationOf, MakeRef, Refs;
    RememberLogs(w, a);
    ProceedIsQuiet(w, a);
    QuietEvents(w.log, ProceedEvents(w, a), key);
  }

  /** A failure is logged once and spends exactly one attempt; the last one is final. */
  lemma FailKeepsAccount(w: World, a: nat, err: Failure, retryDelay: nat, key: JobKey)
    requires a in w.acts && w.acts[a].key in w.jobs && JobAccounted(w, key)
    requires w.jobs[w.acts[a].key].place != Failed
    requires !Excused(w.acts[a].key.queue, SiteOf(w.acts[a].stage), err)
    ensures JobAccounted(Fail(w, a, err, retryDelay), key)
  {
    hide Fail, Failures, DeadLetters, SiteOf, Excused;
    FailLogs(w, a, err, retryDelay);
    FailAttempts(w, a, err, retryDelay);
    var act := w.acts[a];
    var threw := Threw(a, act.key, SiteOf(act.stage), err);
    FailuresNext(w.log, threw, key);
    var events := ThrowEvents(w, a, err);
    assert w.log + events == (w.log + [threw]) + events[1..];
    QuietEvents(w.log + [threw], events[1..], key);
  }

  lemma OnErrorKeepsAccount(w: World, a: nat, err: Failure, retryDelay: nat, key: JobKey)
    requires a in w.acts && w.acts[a].key in w.jobs && ActHolds(w, a) && JobAccounted(w, key)
    requires !w.acts[a].stage.Remembering?
    ensures JobAccounted(OnError(w, a, err, retryDelay), key)
  {
    hide Fail, Failures, DeadLetters, SiteOf, MaxAttempts, HasLimiter, MALWARE_SCAN;
    var act := w.acts[a];
    if Excused(act.key.queue, SiteOf(act.stage), err) {
      ThrowLogs(w, a, err, retryDelay);
      FailuresNext(w.log, Threw(a, act.key, SiteOf(act.stage), err), key);
    } else {
      FailKeepsAccount(w, a, err, retryDelay, key);
    }
  }

  lemma LostMoveKeepsAccount(w: World, a: nat, err: Failure, key: JobKey)
    requires a in w.acts && w.acts[a].key in w.jobs && ActHolds(w, a) && JobAccounted(w, key)
    requires w.acts[a].stage.Moving?
    ensures JobAccounted(LoseMove(w, a, w.acts[a].stage.wake, err), key)
  {
    hide Failures, MaxAttempts, OrganisationOf;
    var es := LostMoveEvents(w, a, err);
    FailuresNext(w.log, es[0], key);
    FailuresNext(w.log + [es[0]], es[1], key);
  }

  lemma GoKeepsAccount(w: World, a: nat, outcome: Outcome, key: JobKey)
    requires Holders(w) && JobAccounted(w, key)
    ensures JobAccounted(DoGo(w, a, outcome), key)
  {
    hide Holders, Proceed, OnError, LoseMove, RememberPausedJob, JobAccounted;
    HolderOf(w, a);
    if a in w.acts {
      if w.acts[a].stage.Remembering? {
        RememberKeepsAccount(w, a, key);
      } else {
        match outcome
        case Return => ProceedKeepsAccount(w, a, key);
        case Throw(err, retryDelay, _) =>
          if IsLostMove(w.acts[a].stage, outcome) {
            LostMoveKeepsAccount(w, a, err, key);
          } else {
            OnErrorKeepsAccount(w, a, err, retryDelay, key);
          }
      }
    }
  }

  lemma QueueKeepsAccount(w: World, action: Action, key: JobKey)
    requires action.RemoveJob? || action.Wake? || action.Pick? || action.Crash? || action.Tick?
      || action.SetOrganisation? || action.SetKey? || action.WriteLetter?
    requires JobAccounted(w, key)
    ensures JobAccounted(Next(w, action), key)
  {
    hide Failures;
    if action.Crash? {
      FailuresNext(w.log, Crashed(action.proc), key);
    } else if action.WriteLetter? && action.act in w.letters {
      FailuresNext(w.log, DeadLettered(action.act, w.letters[action.act]), key);
      FailuresNext(w.log, LetterRefused(action.act, w.letters[action.act]), key);
    }
  }

  lemma AddKeepsAccount(
    w: World, added: JobKey, name: string, data: Json, attempts: Option<int>, delay: nat, key: JobKey)
    requires JobAccounted(w, key)
    ensures JobAccounted(DoAdd(w, added, name, data, attempts, delay), key)
  {
    hide Failures, QUEUE_NAMES;
    FailuresNext(w.log, Added(added), key);
    if key == added {
      assert Failures(w.log + [Added(added)], key) == 0;
      assert MaxAttempts(attempts) > 0;
    }
  }

  /** Promotion logs no failure, and only moves a delayed job to waiting. */
  lemma LookUpKeepsAccount(w: World, owner: Owner, ref: string, up: bool, key: JobKey)
    requires JobAccounted(w, key)
    ensures JobAccounted(DoTake(w, owner), key)
    ensures JobAccounted(DoLookUp(w, owner, ref, up), key)
    ensures JobAccounted(DoFinish(w, owner), key)
  {
    hide Failures, SplitRef, Refs, KeyOf, MaxAttempts;
    FailuresNext(w.log, Taken(owner), key);
    FailuresNext(w.log, Discarded(owner, ref), key);
  }

  lemma PromoteKeepsAccount(w: World, owner: Owner, reply: Reply, key: JobKey)
    requires JobAccounted(w, key)
    ensures JobAccounted(DoPromote(w, owner, reply), key)
  {
    hide Failures, SplitRef, Refs, KeyOf, MaxAttempts;
    if owner in w.flights && w.flights[owner].current.Some? {
      var ref := w.flights[owner].current.value;
      FailuresNext(w.log, Promoted(owner, ref), key);
      FailuresNext(w.log, PromotedUnseen(owner, ref), key);
    }
  }

  /**
   * In every reachable state, for every job: the attempts made are the genuine
   * failures since it was added, and it has failed for good exactly when they
   * reach the attempts it was given.
   */
  lemma {:induction false} AttemptsAreGenuineFailures(actions: seq<Action>, key: JobKey)
    ensures
      var w := Run(EMPTY_WORLD, actions);
      key in w.jobs ==>
        && w.jobs[key].attemptsMade == Failures(w.log, key) <= MaxAttempts(w.jobs[key].attempts)
        && (w.jobs[key].place == Failed <==> Failures(w.log, key) == MaxAttempts(w.jobs[key].attempts))
  {
    AccountedInRun(actions, key);
  }

  lemma {:induction false} AccountedInRun(actions: seq<Action>, key: JobKey)
    ensures JobAccounted(Run(EMPTY_WORLD, actions), key)
  {
    hide Next, DoGo, Holders;
    if actions != [] {
      var before := actions[..|actions| - 1];
      var action := actions[|actions| - 1];
      AccountedInRun(before, key);
      RunHolds(before);
      NextKeepsAccount(Run(EMPTY_WORLD, before), action, key);
    }
  }

  lemma NextKeepsAccount(w: World, action: Action, key: JobKey)
    requires Holders(w) && JobAccounted(w, key)
    ensures JobAccounted(Next(w, action), key)
  {
    hide Holders, JobAccounted, DoAdd, DoRemove, DoWake, DoPick, DoGo, DoCrash, DoTake, DoLookUp, DoPromote, DoFinish;
    if action.Go? {
      GoKeepsAccount(w, action.act, action.outcome, key);
    } else if action.AddJob? {
      AddKeepsAccount(w, action.key, action.name, action.data, action.attempts, action.delay, key);
    } else if action.Promote? {
      PromoteKeepsAccount(w, action.owner, action.reply, key);
    } else if action.LookUp? {
      LookUpKeepsAccount(w, action.owner, action.ref, action.up, key);
    } else if action.Take? || action.Finish? {
      LookUpKeepsAccount(w, action.owner, "", true, key);
    } else {
      QueueKeepsAccount(w, action, key);
    }
  }

  /**
   * A key pause spends an attempt exactly when the move to delayed itself
   * throws without having taken effect (and is not a throttle on a limited
   * queue): losing the tenant key in the middle of a scan can therefore burn one.
   */
  lemma PauseSpendsIffMoveFails(w: World, a: nat, outcome: Outcome)
    requires Holders(w) && a in w.acts && w.acts[a].stage.Moving?
    ensures
      var key, w' := w.acts[a].key, DoGo(w, a, outcome);
      var throttled :=
        outcome.Throw? && (key.queue == "email" || key.queue == "notification") && outcome.err == SendThrottled;
      && key in w.jobs && key in w'.jobs
      && w'.jobs[key].attemptsMade ==
           w.jobs[key].attemptsMade + (if outcome.Throw? && !outcome.unseen && !throttled then 1 else 0)
      && (w'.jobs[key].place == Delayed(w.acts[a].stage.wake) <== outcome.Return? || outcome.unseen)
  {
    hide Holders, Fail, MALWARE_SCAN, OrganisationOf;
    HolderOf(w, a);
    if outcome.Throw? {
      FailAttempts(w, a, outcome.err, outcome.retryDelay);
    }
  }

  // ---- What an error does -------------------------------------------------------------

  /** A scan of a piece of evidence. */
  predicate IsScan(queue: string, job: Job) {
    && queue == "malware-scan" && job.name == "scan" && job.data.JObject? && "evidenceId" in job.data.fields
    && job.data.fields["evidenceId"].JString? && job.data.fields["evidenceId"].s != ""
  }

  lemma DeadLettersExactly(queue: string, job: Job)
    ensures DeadLetters(queue, job) <==> IsScan(queue, job) && job.attemptsMade >= MaxAttempts(job.attempts)
  {
  }

  /**
   * The job spends an attempt. If its configured attempts leave another it is
   * delayed as asked, or waits; otherwise it has failed for good, and if it is
   * a scan its process owes it a letter. Nothing else has changed, but the log.
   */
  predicate Fails(w: World, w': World, a: nat, retryDelay: nat)
    requires a in w.acts && w.acts[a].key in w.jobs
  {
    var act := w.acts[a];
    var job := w.jobs[act.key];
    var again := job.attempts.Some? && job.attemptsMade + 1 < job.attempts.value;
    var place := if !again then Failed else if retryDelay == 0 then Waiting else Delayed(w.now + retryDelay);
    w' == w.(
      jobs := w.jobs[act.key := job.(attemptsMade := job.attemptsMade + 1, place := place)], acts := w.acts - {a},
      letters := if !again && IsScan(act.key.queue, job) then w.letters[a := Letter(act.proc, act.key, job.attempts)]
                 else w.letters,
      log := w'.log)
  }

  /**
   * What the handler makes of an error: a key loss in the processor of a scan is
   * paused for thirty seconds, a throttled send pauses its queue, unless pausing
   * it threw, and anything else fails the job.
   */
  predicate ErrorDecides(w: World, w': World, a: nat, err: Failure, retryDelay: nat)
    requires a in w.acts && w.acts[a].key in w.jobs
  {
    var queue, stage := w.acts[a].key.queue, w.acts[a].stage;
    if stage in {Processor, Rejecting, Body} && queue == "malware-scan" && err == TenantKeyUnavailable then
      GoesTo(w, w', a, Moving(w.now + 30_000))
    else if stage != RateLimiting && (queue == "email" || queue == "notification") && err == SendThrottled then
      GoesTo(w, w', a, RateLimiting)
    else Fails(w, w', a, retryDelay)
  }

  lemma FailFails(w: World, a: nat, err: Failure, retryDelay: nat)
    requires a in w.acts && w.acts[a].key in w.jobs
    ensures Fails(w, Fail(w, a, err, retryDelay), a, retryDelay)
  {
    var job := w.jobs[w.acts[a].key];
    AlertMeansNoRetry(job.attemptsMade, job.attempts);
    hide SiteOf, DeadLetters, IsScan, MaxAttempts;
    var spent := job.(attemptsMade := job.attemptsMade + 1,
                      place := if Retries(job.attemptsMade, job.attempts)
                               then PlaceAfter(w.now, retryDelay) else Failed);
    DeadLettersExactly(w.acts[a].key.queue, spent);
    assert IsScan(w.acts[a].key.queue, spent) <==> IsScan(w.acts[a].key.queue, job) by {
      SameScan(w.acts[a].key.queue, spent, job);
    }
  }

  lemma SameScan(queue: string, job: Job, other: Job)
    requires job.name == other.name && job.data == other.data
    ensures IsScan(queue, job) <==> IsScan(queue, other)
  {
  }

  lemma OnErrorDecides(w: World, a: nat, err: Failure, retryDelay: nat)
    requires a in w.acts && w.acts[a].key in w.jobs && !w.acts[a].stage.Remembering?
    ensures ErrorDecides(w, OnError(w, a, err, retryDelay), a, err, retryDelay)
  {
    FailFails(w, a, err, retryDelay);
    hide Fail, Fails;
  }

  /**
   * What an error does, in every reachable state. One that comes after the move
   * to delayed has taken effect leaves the job delayed and out of the handler's
   * hands.
   */
  lemma FailureDecides(actions: seq<Action>, a: nat, err: Failure, retryDelay: nat, unseen: bool)
    ensures
      var w := Run(EMPTY_WORLD, actions);
      a in w.acts && !w.acts[a].stage.Remembering? ==>
        && w.acts[a].key in w.jobs
        && var w' := Next(w, Go(a, Throw(err, retryDelay, unseen)));
        if w.acts[a].stage.Moving? && unseen then GoesHome(w, w', a, Delayed(w.acts[a].stage.wake))
        else ErrorDecides(w, w', a, err, retryDelay)
  {
    hide Run, Holders, OnError, ErrorDecides, OrganisationOf;
    var w := Run(EMPTY_WORLD, actions);
    RunHolds(actions);
    HolderOf(w, a);
    if a in w.acts && !w.acts[a].stage.Remembering? {
      OnErrorDecides(w, a, err, retryDelay);
    }
  }
}
