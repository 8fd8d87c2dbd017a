/**
 * What one activation can spend: an excused failure costs an attempt exactly
 * when the call that was to excuse it throws as well.
 */
module WorkerSpending {
  import opened Common
  import opened TenantGates
  import opened WorkerModel
  import opened WorkerLog
  import opened WorkerPlaces
  import opened WorkerAttempts

  predicate IsThrow(e: Event, a: nat) {
    e.Threw? && e.act == a
  }

  /** The errors one activation met, in order. */
  function ThrowsOf(log: seq<Event>, a: nat): seq<Event> {
    if log == [] then []
    else ThrowsOf(log[..|log| - 1], a) + if IsThrow(log[|log| - 1], a) then [log[|log| - 1]] else []
  }

  lemma ThrowsNext(log: seq<Event>, e: Event, a: nat)
    ensures ThrowsOf(log + [e], a) == ThrowsOf(log, a) + if IsThrow(e, a) then [e] else []
  {
    assert (log + [e])[..|log|] == log;
  }

  lemma {:induction false} ThrowsOfOthers(log: seq<Event>, es: seq<Event>, a: nat)
    requires forall e :: e in es ==> !IsThrow(e, a)
    ensures ThrowsOf(log + es, a) == ThrowsOf(log, a)
  {
    if es == [] {
      assert log + es == log;
    } else {
      ThrowsOfOthers(log, es[..|es| - 1], a);
      assert log + es == (log + es[..|es| - 1]) + [es[|es| - 1]];
      assert !IsThrow(es[|es| - 1], a);
      ThrowsNext(log + es[..|es| - 1], es[|es| - 1], a);
    }
  }

  predicate IsExcused(e: Event)
    requires e.Threw?
  {
    Excused(e.key.queue, e.site, e.err)
  }

  predicate IsThrottle(e: Event)
    requires e.Threw?
  {
    e.site != AtRateLimit && e.site != Unheld && HasLimiter(e.key.queue) && e.err == SendThrottled
  }

  /**
   * One error, or an excused one and a second: from pausing the queue after a
   * throttle, from the move to delayed after a key loss. The second is excused
   * only if the move had taken effect.
   */
  predicate IsStory(throws: seq<Event>) {
    && |throws| <= 2
    && (forall i :: 0 <= i < |throws| ==> throws[i].Threw?)
    && (|throws| == 2 ==>
          && IsExcused(throws[0]) && throws[0].site != Unheld
          && (if IsThrottle(throws[0]) then throws[1].site == AtRateLimit else throws[1].site in {AtGates, Unheld})
          && (IsExcused(throws[1]) <==> throws[1].site == Unheld))
  }

  /** What an activation has met, by the stage it has reached. */
  predicate StageFits(act: Act, throws: seq<Event>) {
    match act.stage
    case RateLimiting =>
      && |throws| == 1 && throws[0].Threw? && throws[0].key == act.key && IsThrottle(throws[0])
    case Moving(_) => LostKey(act, throws)
    case Remembering => LostKey(act, throws)
    case _ => throws == []
  }

  predicate LostKey(act: Act, throws: seq<Event>) {
    throws == [] ||
    (&& |throws| == 1 && throws[0].Threw? && throws[0].key == act.key
     && act.key.queue == MALWARE_SCAN && throws[0].site == InProcessor && throws[0].err == TenantKeyUnavailable)
  }

  ghost predicate Spends(w: World, a: nat) {
    && IsStory(ThrowsOf(w.log, a))
    && (a >= w.nextAct ==> ThrowsOf(w.log, a) == [])
    && (a in w.acts ==> StageFits(w.acts[a], ThrowsOf(w.log, a)))
  }

  lemma ScansHaveNoLimiter()
    ensures !HasLimiter(MALWARE_SCAN)
  {
    assert |MALWARE_SCAN| == 12 && |"email"| == 5 && |"notification"| == 12 && MALWARE_SCAN[0] != "notification"[0];
  }

  lemma ProceedThrowsNone(w: World, a: nat, b: nat)
    requires a in w.acts
    ensures forall e :: e in ProceedEvents(w, a) ==> !IsThrow(e, b)
  {
    hide ProceedEvents;
    ProceedIsQuiet(w, a);
  }

  /** Where a call that returns leaves the activation. */
  lemma ProceedStage(w: World, a: nat)
    requires a in w.acts && w.acts[a].key in w.jobs
    ensures
      var w' := Proceed(w, a);
      && w'.nextAct == w.nextAct
      && (a in w'.acts ==>
            && w'.acts[a] == w.acts[a].(stage := w'.acts[a].stage)
            && (match w'.acts[a].stage
                case RateLimiting => false
                case Remembering => w.acts[a].stage.Moving?
                case Moving(_) => w.acts[a].stage.KeyGate?
                case _ => w.acts[a].stage.Enter? || w.acts[a].stage.KeyGate? || w.acts[a].stage.Processor?))
  {
    hide EnterGate, InnerGate, KeyStatusOf, OrganisationOf, TenantJobAction, MakeRef, Refs;
    match w.acts[a].stage
    case Enter => EnterStageOf(w, a);
    case Processor => InnerStageOf(w, a);
    case _ =>
  }

  lemma EnterStageOf(w: World, a: nat)
    requires a in w.acts && w.acts[a].key in w.jobs && w.acts[a].stage.Enter?
    ensures
      var w' := EnterGate(w, a);
      && w'.nextAct == w.nextAct
      && (a in w'.acts ==>
            && w'.acts[a] == w.acts[a].(stage := w'.acts[a].stage)
            && (w'.acts[a].stage.Processor? || w'.acts[a].stage.KeyGate? || w'.acts[a].stage.Enter?))
  {
    hide IsPlatformAuditJob, AcceptsWork, OrganisationOf;
  }

  lemma InnerStageOf(w: World, a: nat)
    requires a in w.acts && w.acts[a].key in w.jobs && w.acts[a].stage.Processor?
    ensures
      var w' := InnerGate(w, a);
      && w'.nextAct == w.nextAct
      && (a in w'.acts ==>
            && w'.acts[a] == w.acts[a].(stage := w'.acts[a].stage)
            && (w'.acts[a].stage.Rejecting? || w'.acts[a].stage.Body?))
  {
    hide IsPlatformAuditJob, InnerActive, OrganisationOf, AUDIT_VERIFY, Logged;
    LoggedActs();
  }

  lemma LoggedActs()
    ensures forall w, e :: Logged(w, e).acts == w.acts && Logged(w, e).nextAct == w.nextAct
  {
  }

  lemma ProceedKeepsSpending(w: World, a: nat)
    requires a in w.acts && w.acts[a].key in w.jobs && a < w.nextAct && Spends(w, a)
    ensures Spends(Proceed(w, a), a)
  {
    hide Proceed, ProceedEvents, ThrowsOf, IsThrow, IsStory, IsThrottle;
    ProceedLogs(w, a);
    ProceedThrowsNone(w, a, a);
    ThrowsOfOthers(w.log, ProceedEvents(w, a), a);
    ProceedStage(w, a);
  }

  lemma RememberKeepsSpending(w: World, a: nat)
    requires a in w.acts && w.acts[a].stage.Remembering? && a < w.nextAct && Spends(w, a)
    ensures Spends(RememberPausedJob(w, a), a)
  {
    hide ProceedEvents, ThrowsOf, IsThrow, IsStory, OrganisationOf, MakeRef, Refs;
    RememberLogs(w, a);
    ProceedThrowsNone(w, a, a);
    ThrowsOfOthers(w.log, ProceedEvents(w, a), a);
  }

  lemma ThrowsAfterError(w: World, a: nat, err: Failure, b: nat)
    requires a in w.acts && w.acts[a].key in w.jobs
    ensures ThrowsOf(w.log + ThrowEvents(w, a, err), b) ==
      if b == a then ThrowsOf(w.log, b) + [Threw(a, w.acts[a].key, SiteOf(w.acts[a].stage), err)]
      else ThrowsOf(w.log, b)
  {
    hide ThrowsOf, Excused, DeadLetters, SiteOf;
    var es := ThrowEvents(w, a, err);
    ThrowsNext(w.log, es[0], b);
    assert w.log + es == (w.log + [es[0]]) + es[1..];
    ThrowsOfOthers(w.log + [es[0]], es[1..], b);
  }

  /** Where an error leaves the activation. */
  lemma ErrorStageOf(w: World, a: nat, err: Failure, retryDelay: nat)
    requires a in w.acts && w.acts[a].key in w.jobs
    ensures
      var act, w' := w.acts[a], OnError(w, a, err, retryDelay);
      var threw := Threw(a, act.key, SiteOf(act.stage), err);
      && w'.nextAct == w.nextAct
      && (a in w'.acts ==>
            && IsExcused(threw) && w'.acts[a] == act.(stage := w'.acts[a].stage)
            && (w'.acts[a].stage.RateLimiting? || w'.acts[a].stage.Moving?)
            && (w'.acts[a].stage.RateLimiting? ==> IsThrottle(threw))
            && (w'.acts[a].stage.Moving? ==>
                  act.key.queue == MALWARE_SCAN && threw.site == InProcessor && err == TenantKeyUnavailable))
      && (IsExcused(threw) ==> a in w'.acts)
  {
    hide Fail, HasLimiter, MALWARE_SCAN, SiteOf;
    FailEnds(w, a, err, retryDelay);
  }

  lemma ErrorKeepsSpending(w: World, a: nat, err: Failure, retryDelay: nat)
    requires a in w.acts && w.acts[a].key in w.jobs && a < w.nextAct && Spends(w, a)
    requires !w.acts[a].stage.Remembering?
    ensures Spends(OnError(w, a, err, retryDelay), a)
  {
    hide OnError, ThrowsOf, ThrowEvents, HasLimiter, MALWARE_SCAN;
    ThrowLogs(w, a, err, retryDelay);
    ThrowsAfterError(w, a, err, a);
    ErrorStageOf(w, a, err, retryDelay);
    ScansHaveNoLimiter();
  }

  lemma GoKeepsSpending(w: World, b: nat, outcome: Outcome, a: nat)
    requires Holders(w) && Spends(w, a)
    ensures Spends(DoGo(w, b, outcome), a)
  {
    hide Holders, Proceed, OnError, RememberPausedJob, Spends;
    HolderOf(w, b);
    if b in w.acts {
      if a != b {
        OtherKeepsSpending(w, b, outcome, a);
      } else if w.acts[b].stage.Remembering? {
        RememberKeepsSpending(w, a);
      } else if outcome.Return? {
        ProceedKeepsSpending(w, a);
      } else {
        ThrowKeepsSpending(w, a, outcome);
      }
    }
  }

  lemma ThrowKeepsSpending(w: World, a: nat, outcome: Outcome)
    requires a in w.acts && w.acts[a].key in w.jobs && a < w.nextAct && Spends(w, a)
    requires !w.acts[a].stage.Remembering? && outcome.Throw?
    ensures Spends(DoGo(w, a, outcome), a)
  {
    hide OnError, LoseMove, Spends;
    if IsLostMove(w.acts[a].stage, outcome) {
      LostMoveKeepsSpending(w, a, outcome.err);
    } else {
      ErrorKeepsSpending(w, a, outcome.err, outcome.retryDelay);
    }
  }

  lemma LostMoveKeepsSpending(w: World, a: nat, err: Failure)
    requires a in w.acts && w.acts[a].key in w.jobs && a < w.nextAct && Spends(w, a)
    requires w.acts[a].stage.Moving?
    ensures Spends(LoseMove(w, a, w.acts[a].stage.wake, err), a)
  {
    hide ThrowsOf, OrganisationOf, HasLimiter, MALWARE_SCAN;
    ScansHaveNoLimiter();
    var es := LostMoveEvents(w, a, err);
    ThrowsNext(w.log, es[0], a);
    ThrowsNext(w.log + [es[0]], es[1], a);
  }

  lemma LostMoveIsOthers(w: World, b: nat, err: Failure, a: nat)
    requires b in w.acts && w.acts[b].stage.Moving? && a != b
    ensures forall e :: e in LostMoveEvents(w, b, err) ==> !IsThrow(e, a)
  {
    hide OrganisationOf;
  }

  lemma OtherKeepsSpending(w: World, b: nat, outcome: Outcome, a: nat)
    requires a != b && b in w.acts && ActHolds(w, b) && Spends(w, a)
    ensures Spends(DoGo(w, b, outcome), a)
  {
    hide DoGo, ThrowsOf, IsStory, StageFits, ProceedEvents, ThrowEvents, LostMoveEvents;
    GoMoves(w, b, outcome);
    GoLogs(w, b, outcome);
    ProceedThrowsNone(w, b, a);
    ThrowsOfOthers(w.log, ProceedEvents(w, b), a);
    ThrowsOfOthers(w.log, [], a);
    if !w.acts[b].stage.Remembering? && outcome.Throw? {
      ThrowsAfterError(w, b, outcome.err, a);
      if w.acts[b].stage.Moving? {
        LostMoveIsOthers(w, b, outcome.err, a);
        ThrowsOfOthers(w.log, LostMoveEvents(w, b, outcome.err), a);
      }
    }
  }

  lemma OthersKeepSpending(w: World, action: Action, a: nat)
    requires !action.Go? && Holders(w) && Spends(w, a)
    ensures Spends(Next(w, action), a)
  {
    hide Holders, ThrowsOf, IsStory, StageFits, Next;
    HolderOf(w, a);
    OthersThrowNone(w, action, a);
    if !action.Pick? && !action.Crash? {
      OthersKeepActive(w, action);
    } else {
      PickedIsFresh(w, action, a);
    }
  }

  lemma PickedIsFresh(w: World, action: Action, a: nat)
    requires (action.Pick? || action.Crash?) && Spends(w, a) && ThrowsOf(Next(w, action).log, a) == ThrowsOf(w.log, a)
    ensures Spends(Next(w, action), a)
  {
    hide ThrowsOf, IsStory, RunsIn;
  }

  lemma OthersThrowNone(w: World, action: Action, a: nat)
    requires !action.Go?
    ensures ThrowsOf(Next(w, action).log, a) == ThrowsOf(w.log, a)
  {
    hide Next;
    OthersLog(w, action);
    var log := Next(w, action).log;
    if log != w.log {
      assert log == w.log + [log[|log| - 1]];
      ThrowsNext(w.log, log[|log| - 1], a);
    }
  }

  lemma NextKeepsSpending(w: World, action: Action, a: nat)
    requires Holders(w) && Spends(w, a)
    ensures Spends(Next(w, action), a)
  {
    hide Holders, Spends, DoGo;
    if action.Go? {
      GoKeepsSpending(w, action.act, action.outcome, a);
    } else {
      hide Next;
      OthersKeepSpending(w, action, a);
    }
  }

  lemma {:induction false} RunSpends(actions: seq<Action>, a: nat)
    ensures Spends(Run(EMPTY_WORLD, actions), a)
  {
    if actions != [] {
      hide Next, Spends, Holders;
      var before := actions[..|actions| - 1];
      RunSpends(before, a);
      RunHolds(before);
      NextKeepsSpending(Run(EMPTY_WORLD, before), actions[|actions| - 1], a);
    }
  }

  /** The activation has spent an attempt: one of its errors was not excused. */
  ghost predicate HasSpent(throws: seq<Event>) {
    exists i :: 0 <= i < |throws| && throws[i].Threw? && !IsExcused(throws[i])
  }

  /**
   * Over every run: an activation meets at most two errors and spends at most
   * one attempt. A key loss in a scan, or a throttle on a limited queue, costs
   * one exactly when a second error follows it: from the move to delayed, unless
   * that had taken effect, or from pausing the queue.
   */
  lemma ExcusedCostsIffItThrowsAgain(actions: seq<Action>, a: nat)
    ensures
      var throws := ThrowsOf(Run(EMPTY_WORLD, actions).log, a);
      && |throws| <= 2
      && (throws != [] && throws[0].Threw? && IsExcused(throws[0]) && throws[0].site != Unheld ==>
            && (|throws| == 2 ==>
                  && throws[1].Threw?
                  && if IsThrottle(throws[0]) then throws[1].site == AtRateLimit
                     else throws[1].site in {AtGates, Unheld})
            && (HasSpent(throws) <==> |throws| == 2 && throws[1].Threw? && throws[1].site != Unheld))
      && (throws != [] && throws[0].Threw? && throws[0].site == Unheld ==> |throws| == 1 && !HasSpent(throws))
      && (throws != [] && throws[0].Threw? && !IsExcused(throws[0]) ==> |throws| == 1)
  {
    hide Run, IsThrottle, ThrowsOf, HasLimiter, MALWARE_SCAN;
    RunSpends(actions, a);
  }
}
