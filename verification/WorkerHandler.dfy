/**
 * The per-queue handler as the code runs it: gates, nested processors and
 * `try` blocks, with an await wherever the rest of the system may act. Every
 * execution of it is a run of the worker's state machine.
 */
module WorkerHandler {
  import opened Common
  import opened TenantGates
  import opened WorkerModel
  import opened WorkerLog
  import opened WorkerPlaces

  /**
   * How a piece of the handler ends: by returning, by one of BullMQ's signals,
   * by an error, by an error after the job has left its hands, or with the process.
   */
  datatype Ending =
    | Returned
    | DelayedSignal
    | RateLimitSignal
    | Raised(error: Outcome)
    | Adrift(error: Outcome)
    | Killed

  predicate IsOthers(action: Action, a: nat) {
    !(action.Go? && action.act == a)
  }

  predicate OnlyOthers(actions: seq<Action>, a: nat) {
    forall action :: action in actions ==> IsOthers(action, a)
  }

  /** What happens during each await, and how the awaited call ends. */
  type Script = seq<(seq<Action>, Outcome)>

  predicate LeavesAlone(script: Script, a: nat) {
    forall part :: part in script ==> OnlyOthers(part.0, a)
  }

  lemma OthersKeepAct(w: World, action: Action, a: nat)
    requires Holders(w) && a in w.acts && IsOthers(action, a)
    ensures a in Next(w, action).acts ==> Next(w, action).acts[a] == w.acts[a]
  {
    hide Holders, DoGo, KeepsActive, RunsIn;
    if action.Go? {
      HolderOf(w, action.act);
      if action.act in w.acts {
        GoMoves(w, action.act, action.outcome);
      } else {
        UnknownGo(w, action.act, action.outcome);
      }
    } else if !action.Pick? && !action.Crash? {
      hide Next;
      OthersKeepActive(w, action);
    } else {
      HolderOf(w, w.nextAct);
      HolderOf(w, a);
    }
  }

  /** An activation that is over stays over. */
  lemma OthersKeepGone(w: World, action: Action, a: nat)
    requires Holders(w) && a !in w.acts && a < w.nextAct
    ensures a !in Next(w, action).acts && a < Next(w, action).nextAct
  {
    hide Holders, DoGo, KeepsActive, RunsIn;
    if action.Go? {
      HolderOf(w, action.act);
      if action.act in w.acts {
        GoMoves(w, action.act, action.outcome);
      } else {
        UnknownGo(w, action.act, action.outcome);
      }
    } else if !action.Pick? && !action.Crash? {
      hide Next;
      OthersKeepActive(w, action);
    }
  }

  class Runtime {
    var world: World
    var script: Script
    /** Every action so far, this handler's and everyone else's. */
    ghost var schedule: seq<Action>

    ghost predicate Valid()
      reads this
    {
      world == Run(EMPTY_WORLD, schedule)
    }

    ghost predicate IsRunning(a: nat)
      reads this
    {
      Valid() && LeavesAlone(script, a) && a in world.acts
    }

    constructor (script: Script)
      ensures Valid() && this.script == script && schedule == []
    {
      world, this.script, schedule := EMPTY_WORLD, script, [];
    }

    /** One atomic effect, which has to be the machine's. */
    method Commit(next: World, ghost action: Action)
      requires Valid() && next == Next(world, action)
      modifies `world, `schedule
      ensures Valid() && world == next && schedule == old(schedule) + [action]
    {
      hide Next;
      assert (schedule + [action])[..|schedule|] == schedule;
      world, schedule := next, schedule + [action];
    }

    /** The call is out; others act until it comes back, or until this process dies. */
    method Await(a: nat) returns (outcome: Option<Outcome>)
      requires IsRunning(a)
      modifies this
      ensures Valid() && LeavesAlone(script, a)
      ensures if outcome.Some? then a in world.acts && world.acts[a] == old(world).acts[a] else a !in world.acts
    {
      if script == [] {
        var proc := world.acts[a].proc;
        Commit(DoCrash(world, proc), Crash(proc));
        return None;
      }
      var others, end := script[0].0, script[0].1;
      assert script[0] in script;
      script := script[1..];
      for i := 0 to |others|
        invariant IsRunning(a) && world.acts[a] == old(world).acts[a]
      {
        assert others[i] in others;
        RunHolds(schedule);
        OthersKeepAct(world, others[i], a);
        Commit(Next(world, others[i]), others[i]);
        if a !in world.acts {
          return None;
        }
      }
      outcome := Some(end);
    }

    /** The call is out, and the activation that made it no longer holds its job. */
    method AwaitAdrift(a: nat)
      requires Valid() && a !in world.acts && a < world.nextAct
      modifies this
      ensures Valid() && a !in world.acts
    {
      if script == [] {
        return;
      }
      var others := script[0].0;
      script := script[1..];
      for i := 0 to |others|
        invariant Valid() && a !in world.acts && a < world.nextAct
      {
        RunHolds(schedule);
        OthersKeepGone(world, others[i], a);
        Commit(Next(world, others[i]), others[i]);
      }
    }

    /** `moveToDelayed`: delay the job, then note it in the ledger. */
    method MoveToDelayed(a: nat) returns (r: Ending)
      requires IsRunning(a) && world.acts[a].stage.Moving?
      modifies this
      ensures Valid() && LeavesAlone(script, a)
      ensures !r.Raised? ==> a !in world.acts
      ensures r.Raised? ==> IsRunning(a) && r.error.Throw? && !r.error.unseen && world.acts[a].stage.Moving?
      ensures r.Adrift? ==> r.error.Throw? && a < world.nextAct
    {
      hide Run, MakeRef, OrganisationOf;
      var outcome := Await(a);
      if outcome.None? {
        return Killed;
      }
      Held(a);
      var act := world.acts[a];
      var org := OrganisationOf(act.data);
      if outcome.value.Throw? {
        if outcome.value.unseen {
          var paused := Paused(a, act.key, org, act.stage.wake, world.now);
          var moved := Logged(EndAt(world, a, Delayed(act.stage.wake)), paused);
          Commit(Logged(moved, Threw(a, act.key, Unheld, outcome.value.err)), Go(a, outcome.value));
          return Adrift(outcome.value);
        }
        return Raised(outcome.value);
      }
      var delayed := PutStage(PutJob(world, act.key, Delayed(act.stage.wake)), a, Remembering);
      Commit(Logged(delayed, Paused(a, act.key, org, act.stage.wake, world.now)), Go(a, Return));
      outcome := Await(a);
      if outcome.None? {
        return Killed;
      }
      var ref := MakeRef(act.key.queue, act.key.id);
      var noted := Note(world, (act.proc, org), ref).(acts := world.acts - {a});
      Commit(Logged(noted, Noted((act.proc, org), ref)), Go(a, Return));
      r := DelayedSignal;
    }

    lemma Held(a: nat)
      requires IsRunning(a)
      ensures ActHolds(world, a)
    {
      RunHolds(schedule);
    }

    /** The awaited audit record of a rejected job; the job ends without error once it is written. */
    method RecordRejection(a: nat) returns (r: Ending)
      requires IsRunning(a) && world.acts[a].stage.Rejecting?
      modifies this
      ensures Valid() && LeavesAlone(script, a) && !r.DelayedSignal? && !r.Adrift?
      ensures !r.Raised? ==> a !in world.acts
      ensures r.Raised? ==> IsRunning(a) && r.error.Throw? && world.acts[a] == old(world).acts[a]
    {
      hide Run;
      var recorded := Await(a);
      if recorded.None? {
        return Killed;
      }
      if recorded.value.Throw? {
        return Raised(recorded.value);
      }
      Held(a);
      Commit(EndAt(world, a, Completed), Go(a, Return));
      r := Returned;
    }

    /** The processor's own body. */
    method RunBody(a: nat) returns (r: Ending)
      requires IsRunning(a) && world.acts[a].stage.Body?
      modifies this
      ensures Valid() && LeavesAlone(script, a) && !r.DelayedSignal? && !r.Adrift?
      ensures !r.Raised? ==> a !in world.acts
      ensures r.Raised? ==> IsRunning(a) && r.error.Throw? && world.acts[a] == old(world).acts[a]
    {
      hide Run;
      var done := Await(a);
      if done.None? {
        return Killed;
      }
      if done.value.Throw? {
        return Raised(done.value);
      }
      Held(a);
      Commit(EndAt(world, a, Completed), Go(a, Return));
      r := Returned;
    }

    /** `withAuditChain` and `withActiveTenant`, then the processor's own body. */
    method Process(a: nat) returns (r: Ending)
      requires IsRunning(a) && world.acts[a].stage.Processor?
      modifies this
      ensures Valid() && LeavesAlone(script, a) && !r.DelayedSignal? && !r.Adrift?
      ensures !r.Raised? ==> a !in world.acts
      ensures r.Raised? ==> (
        IsRunning(a) && r.error.Throw? && SiteOf(world.acts[a].stage).InProcessor?
        && world.acts[a].key == old(world).acts[a].key)
    {
      hide Run, IsPlatformAuditJob, InnerActive, InnerLook, AUDIT_VERIFY;
      var act := world.acts[a];
      var platform := IsPlatformAuditJob(act.key.queue, act.data);
      var started := BodyStarted(a, act.key, act.data, platform);
      Held(a);
      if act.key.queue == AUDIT_VERIFY && platform {
        Commit(Logged(PutStage(world, a, Body), started), Go(a, Return));
      } else {
        var looked := Await(a);
        if looked.None? {
          return Killed;
        }
        if looked.value.Throw? {
          return Raised(looked.value);
        }
        Held(a);
        var read := InnerLook(world, a, act.data);
        if !InnerActive(world, act.data) {
          Commit(Logged(PutStage(world, a, Rejecting), read), Go(a, Return));
          r := RecordRejection(a);
          return;
        }
        Commit(Logged(Logged(PutStage(world, a, Body), read), started), Go(a, Return));
      }
      r := RunBody(a);
    }

    /** `isOrganisationAcceptingWork`, then `getOrganisationKey`; the job may end or be paused here. */
    method PassGates(a: nat) returns (r: Option<Ending>)
      requires IsRunning(a) && world.acts[a].stage.Enter?
      requires !IsPlatformAuditJob(world.acts[a].key.queue, world.acts[a].data)
      modifies this
      ensures Valid() && LeavesAlone(script, a)
      ensures r.None? ==> IsRunning(a) && world.acts[a] == old(world).acts[a].(stage := Processor)
      ensures r.Some? && !r.value.Raised? ==> a !in world.acts
      ensures r.Some? && r.value.Adrift? ==> r.value.error.Throw? && a < world.nextAct
      ensures r.Some? && r.value.Raised? ==> (
        IsRunning(a) && r.value.error.Throw? && !IsLostMove(world.acts[a].stage, r.value.error)
        && SiteOf(world.acts[a].stage) == AtGates && !world.acts[a].stage.Remembering?)
    {
      hide Run, IsPlatformAuditJob, OrganisationOf, AcceptsWork, KeyStatusOf, TenantJobAction, OuterLook;
      var act := world.acts[a];
      var org := OrganisationOf(act.data);
      if act.data.JNull? {
        return Some(Raised(Throw(OtherError, 0, false)));
      }
      var looked := Await(a);
      if looked.None? {
        return Some(Killed);
      }
      if looked.value.Throw? {
        return Some(Raised(looked.value));
      }
      Held(a);
      if !AcceptsWork(org, StatusOf(world, org)) {
        Commit(Logged(EndAt(world, a, Completed), OuterLook(world, a, act.data)), Go(a, Return));
        return Some(Returned);
      }
      Commit(Logged(PutStage(world, a, KeyGate), OuterLook(world, a, act.data)), Go(a, Return));
      looked := Await(a);
      if looked.None? {
        return Some(Killed);
      }
      if looked.value.Throw? {
        return Some(Raised(looked.value));
      }
      var moved := ApplyGate(a, org);
      if moved {
        var paused := MoveToDelayed(a);
        return Some(paused);
      }
      r := None;
    }

    /** `applyTenantJobGate`: run, or start the pause. */
    method ApplyGate(a: nat, org: string) returns (paused: bool)
      requires IsRunning(a) && world.acts[a].stage.KeyGate? && org == OrganisationOf(world.acts[a].data)
      modifies this
      ensures IsRunning(a)
      ensures paused <==> KeyStatusOf(old(world), org) !in {NoKey, KeyActive}
      ensures world.acts[a] == old(world).acts[a].(stage := if paused then Moving(world.now + 30_000) else Processor)
    {
      hide Run, OrganisationOf, KeyStatusOf;
      Held(a);
      var status := KeyStatusOf(world, org);
      paused := TenantJobAction(status) != RunJob;
      var stage := if paused then Moving(world.now + TENANT_KEY_PAUSE_MS) else Processor;
      Commit(Logged(PutStage(world, a, stage), KeyRead(a, org, status)), Go(a, Return));
    }

    /** The queue's processor closure. */
    method Closure(a: nat) returns (r: Ending)
      requires IsRunning(a) && world.acts[a].stage.Enter?
      modifies this
      ensures Valid() && LeavesAlone(script, a)
      ensures !r.Raised? ==> a !in world.acts
      ensures r.Adrift? ==> r.error.Throw? && a < world.nextAct
      ensures r.Raised? ==> (
        IsRunning(a) && r.error.Throw? && !world.acts[a].stage.Remembering?
        && !IsLostMove(world.acts[a].stage, r.error)
        && SiteOf(world.acts[a].stage) != AtRateLimit
        && !(SiteOf(world.acts[a].stage).InProcessor? && world.acts[a].key.queue == MALWARE_SCAN
             && r.error.err == TenantKeyUnavailable))
    {
      hide Run, IsPlatformAuditJob;
      var act := world.acts[a];
      Held(a);
      if IsPlatformAuditJob(act.key.queue, act.data) {
        IsAuditQueue(act.key.queue, act.data);
        Commit(PutStage(world, a, Processor), Go(a, Return));
        r := Process(a);
        return;
      }
      var gated := PassGates(a);
      if gated.Some? {
        return gated.value;
      }
      r := Process(a);
      if r.Raised? && act.key.queue == MALWARE_SCAN && r.error.err == TenantKeyUnavailable {
        Held(a);
        Commit(Logged(PutStage(world, a, Moving(world.now + TENANT_KEY_PAUSE_MS)),
                      Threw(a, act.key, InProcessor, TenantKeyUnavailable)), Go(a, r.error));
        r := MoveToDelayed(a);
      }
    }

    lemma IsAuditQueue(queue: string, data: Json)
      requires IsPlatformAuditJob(queue, data)
      ensures queue != MALWARE_SCAN
    {
      assert |MALWARE_SCAN| == 12 && |AUDIT_VERIFY| == 12 && MALWARE_SCAN[0] != AUDIT_VERIFY[0];
    }

    /** The `catch` of the queue's handler: pause the queue, then give the job back. */
    method PauseQueue(a: nat) returns (r: Ending)
      requires IsRunning(a) && world.acts[a].stage.RateLimiting?
      modifies this
      ensures Valid() && LeavesAlone(script, a)
      ensures !r.Raised? ==> a !in world.acts
      ensures !r.Adrift?
      ensures r.Raised? ==> IsRunning(a) && r.error.Throw? && world.acts[a].stage.RateLimiting?
    {
      hide Run;
      var paused := Await(a);
      if paused.None? {
        return Killed;
      }
      if paused.value.Throw? {
        return Raised(paused.value);
      }
      Held(a);
      Commit(EndAt(world, a, Waiting), Go(a, Return));
      r := RateLimitSignal;
    }

    /**
     * `createQueueWorker`'s handler around the closure, and what BullMQ makes of
     * its end. Whatever others do meanwhile, every effect is a step of the
     * state machine, and the activation is over at the end.
     */
    method Handle(a: nat)
      requires IsRunning(a) && world.acts[a].stage.Enter?
      modifies this
      ensures Valid() && a !in world.acts
    {
      hide Run, Fail, HasLimiter, MALWARE_SCAN;
      var queue := world.acts[a].key.queue;
      var r := Closure(a);
      if r.Adrift? && HasLimiter(queue) && r.error.err == SendThrottled {
        AwaitAdrift(a);
        return;
      }
      if r.Raised? && HasLimiter(world.acts[a].key.queue) && r.error.err == SendThrottled
         && SiteOf(world.acts[a].stage) != AtRateLimit {
        Held(a);
        var act := world.acts[a];
        Commit(Logged(PutStage(world, a, RateLimiting), Threw(a, act.key, SiteOf(act.stage), SendThrottled)),
               Go(a, r.error));
        r := PauseQueue(a);
      }
      if r.Raised? {
        Held(a);
        FailEnds(world, a, r.error.err, r.error.retryDelay);
        Commit(Fail(world, a, r.error.err, r.error.retryDelay), Go(a, r.error));
      }
    }
  }
}
