/** What each action of the worker appends to the log. */
module WorkerLog {
  import opened Common
  import opened TenantGates
  import opened WorkerModel

  function ProceedEvents(w: World, a: nat): seq<Event>
    requires a in w.acts
  {
    var act := w.acts[a];
    var org := OrganisationOf(act.data);
    var platform := IsPlatformAuditJob(act.key.queue, act.data);
    match act.stage
    case Enter =>
      if platform || act.data.JNull? then [] else [OuterLook(w, a, act.data)]
    case KeyGate => [KeyRead(a, org, KeyStatusOf(w, org))]
    case Moving(wake) => [Paused(a, act.key, org, wake, w.now)]
    case Remembering => [Noted((act.proc, org), MakeRef(act.key.queue, act.key.id))]
    case Processor =>
      var started := BodyStarted(a, act.key, act.data, platform);
      if act.key.queue == AUDIT_VERIFY && platform then [started]
      else if InnerActive(w, act.data) then [InnerLook(w, a, act.data), started]
      else [InnerLook(w, a, act.data)]
    case _ => []
  }

  /**
   * A key loss in a scan's processor, a throttled send on a limited queue
   * (unless pausing the queue threw it), or a move that had taken effect.
   */
  predicate Excused(queue: string, site: Site, err: Failure) {
    || site == Unheld
    || (site == InProcessor && queue == MALWARE_SCAN && err == TenantKeyUnavailable)
    || (site != AtRateLimit && HasLimiter(queue) && err == SendThrottled)
  }

  lemma ExcusedExactly(queue: string, site: Site, err: Failure)
    ensures Excused(queue, site, err) <==>
      || site == Unheld
      || (site == InProcessor && queue == "malware-scan" && err == TenantKeyUnavailable)
      || (site in {AtGates, InProcessor} && (queue == "email" || queue == "notification") && err == SendThrottled)
  {
  }

  function ThrowEvents(w: World, a: nat, err: Failure): seq<Event>
    requires a in w.acts && w.acts[a].key in w.jobs
  {
    var act := w.acts[a];
    var job := w.jobs[act.key];
    var threw := Threw(a, act.key, SiteOf(act.stage), err);
    if !Excused(act.key.queue, SiteOf(act.stage), err)
       && DeadLetters(act.key.queue, job.(attemptsMade := job.attemptsMade + 1))
    then [threw, LetterDue(a, Letter(act.proc, act.key, job.attempts))] else [threw]
  }

  function LostMoveEvents(w: World, a: nat, err: Failure): seq<Event>
    requires a in w.acts && w.acts[a].stage.Moving?
  {
    var act := w.acts[a];
    [Paused(a, act.key, OrganisationOf(act.data), act.stage.wake, w.now), Threw(a, act.key, Unheld, err)]
  }

  function GoEvents(w: World, a: nat, outcome: Outcome): seq<Event> {
    if a !in w.acts then []
    else if w.acts[a].stage.Remembering? then ProceedEvents(w, a)
    else if w.acts[a].key !in w.jobs then []
    else
      match outcome
      case Return => ProceedEvents(w, a)
      case Throw(err, _, _) =>
        if IsLostMove(w.acts[a].stage, outcome) then LostMoveEvents(w, a, err) else ThrowEvents(w, a, err)
  }

  lemma EnterLogs(w: World, a: nat)
    requires a in w.acts && w.acts[a].key in w.jobs && w.acts[a].stage.Enter?
    ensures EnterGate(w, a).log == w.log + ProceedEvents(w, a)
  {
    hide IsPlatformAuditJob, AcceptsWork, OuterLook, OrganisationOf;
  }

  lemma InnerLogs(w: World, a: nat)
    requires a in w.acts && w.acts[a].key in w.jobs && w.acts[a].stage.Processor?
    ensures InnerGate(w, a).log == w.log + ProceedEvents(w, a)
  {
    hide IsPlatformAuditJob, InnerActive, InnerLook, AUDIT_VERIFY, OrganisationOf;
    var act := w.acts[a];
    var read := InnerLook(w, a, act.data);
    var started := BodyStarted(a, act.key, act.data, IsPlatformAuditJob(act.key.queue, act.data));
    assert w.log + [read] + [started] == w.log + [read, started];
  }

  lemma ProceedLogs(w: World, a: nat)
    requires a in w.acts && w.acts[a].key in w.jobs
    ensures Proceed(w, a).log == w.log + ProceedEvents(w, a)
  {
    hide IsPlatformAuditJob, OrganisationOf, KeyStatusOf, MakeRef, TenantJobAction, EnterGate, InnerGate,
         RememberPausedJob;
    match w.acts[a].stage
    case Enter => EnterLogs(w, a);
    case Processor => InnerLogs(w, a);
    case Remembering => RememberLogs(w, a);
    case KeyGate =>
    case _ =>
  }

  lemma RememberLogs(w: World, a: nat)
    requires a in w.acts && w.acts[a].stage.Remembering?
    ensures RememberPausedJob(w, a).log == w.log + ProceedEvents(w, a)
  {
    hide IsPlatformAuditJob, OrganisationOf, InnerActive, KeyStatusOf, MakeRef, AUDIT_VERIFY, Refs, InnerLook;
  }

  lemma FailLogs(w: World, a: nat, err: Failure, retryDelay: nat)
    requires a in w.acts && w.acts[a].key in w.jobs
    requires !Excused(w.acts[a].key.queue, SiteOf(w.acts[a].stage), err)
    ensures Fail(w, a, err, retryDelay).log == w.log + ThrowEvents(w, a, err)
  {
    hide Excused, SiteOf, Retries;
    var job := w.jobs[w.acts[a].key];
    var spent := job.(attemptsMade := job.attemptsMade + 1,
                      place := if Retries(job.attemptsMade, job.attempts)
                               then PlaceAfter(w.now, retryDelay) else Failed);
    assert DeadLetters(w.acts[a].key.queue, spent)
      == DeadLetters(w.acts[a].key.queue, job.(attemptsMade := job.attemptsMade + 1));
  }

  lemma ThrowLogs(w: World, a: nat, err: Failure, retryDelay: nat)
    requires a in w.acts && w.acts[a].key in w.jobs
    ensures OnError(w, a, err, retryDelay).log == w.log + ThrowEvents(w, a, err)
  {
    hide Fail, HasLimiter, MALWARE_SCAN, DeadLetters, SiteOf;
    if !Excused(w.acts[a].key.queue, SiteOf(w.acts[a].stage), err) {
      FailLogs(w, a, err, retryDelay);
    }
  }

  lemma LostMoveLogs(w: World, a: nat, err: Failure)
    requires a in w.acts && w.acts[a].key in w.jobs && w.acts[a].stage.Moving?
    ensures LoseMove(w, a, w.acts[a].stage.wake, err).log == w.log + LostMoveEvents(w, a, err)
  {
    hide OrganisationOf;
    var es := LostMoveEvents(w, a, err);
    assert w.log + es == w.log + [es[0]] + [es[1]];
  }

  lemma GoLogs(w: World, a: nat, outcome: Outcome)
    ensures DoGo(w, a, outcome).log == w.log + GoEvents(w, a, outcome)
  {
    hide Proceed, OnError, LoseMove, RememberPausedJob, ProceedEvents, ThrowEvents, LostMoveEvents;
    if a in w.acts {
      if w.acts[a].stage.Remembering? {
        RememberLogs(w, a);
      } else if w.acts[a].key in w.jobs {
        match outcome
        case Return => ProceedLogs(w, a);
        case Throw(err, retryDelay, _) =>
          ThrowLogs(w, a, err, retryDelay);
          if w.acts[a].stage.Moving? {
            LostMoveLogs(w, a, err);
          }
      }
    }
  }

  /** Not an act of an activation. */
  predicate IsClerical(e: Event) {
    || e.Added? || e.Taken? || e.Promoted? || e.PromotedUnseen? || e.Discarded? || e.Crashed?
    || e.DeadLettered? || e.LetterRefused?
  }

  /** An action of the environment or the promoter logs at most one event. */
  ghost predicate LogsClerically(before: seq<Event>, after: seq<Event>) {
    after == before || (after != [] && after[..|after| - 1] == before && IsClerical(after[|after| - 1]))
  }

  lemma QueueLogs(w: World, action: Action)
    requires action.AddJob? || action.RemoveJob? || action.Wake? || action.Pick? || action.Crash? || action.Tick?
      || action.SetOrganisation? || action.SetKey? || action.WriteLetter?
    ensures LogsClerically(w.log, Next(w, action).log)
  {
    hide QUEUE_NAMES, RunsIn;
  }

  lemma LookUpLogs(w: World, owner: Owner, ref: string, up: bool)
    ensures LogsClerically(w.log, DoTake(w, owner).log)
    ensures LogsClerically(w.log, DoLookUp(w, owner, ref, up).log)
    ensures LogsClerically(w.log, DoFinish(w, owner).log)
  {
    hide SplitRef, Refs, KeyOf;
  }

  lemma PromoteLogs(w: World, owner: Owner, reply: Reply)
    ensures LogsClerically(w.log, DoPromote(w, owner, reply).log)
  {
    hide SplitRef, Refs, KeyOf;
  }

  lemma OthersLog(w: World, action: Action)
    requires !action.Go?
    ensures LogsClerically(w.log, Next(w, action).log)
  {
    hide LogsClerically, DoAdd, DoRemove, DoWake, DoPick, DoCrash, DoTake, DoLookUp, DoPromote, DoFinish;
    match action
    case Take(owner) => LookUpLogs(w, owner, "", true);
    case LookUp(owner, ref, up) => LookUpLogs(w, owner, ref, up);
    case Promote(owner, reply) => PromoteLogs(w, owner, reply);
    case Finish(owner) => LookUpLogs(w, owner, "", true);
    case _ => QueueLogs(w, action);
  }

  lemma NextLogGrows(w: World, action: Action)
    ensures w.log <= Next(w, action).log
  {
    if action.Go? {
      hide DoGo;
      GoLogs(w, action.act, action.outcome);
    } else {
      hide Next;
      OthersLog(w, action);
    }
  }
}
