/** From any reachable state, any unfinished job of a working tenant can still be run to its end. */
module WorkerProgress {
  import opened Common
  import opened TenantGates
  import opened WorkerModel
  import opened WorkerLog
  import opened WorkerPlaces
  import opened WorkerGates

  predicate IsUnfinished(place: Place) {
    !place.Completed? && !place.Failed?
  }

  /** The platform job, or a tenant job whose organisation is active and whose key is active or absent. */
  predicate LetThrough(w: World, key: JobKey, data: Json) {
    || SaysPlatform(key.queue, data)
    || (&& SaysTenant(data)
        && var org := data.fields["organisationId"].s;
           && org != "" && org in w.tenants.organisations && w.tenants.organisations[org] == Active
           && (org in w.tenants.keys ==> w.tenants.keys[org] in {NoKey, KeyActive}))
  }

  lemma LetsThrough(w: World, key: JobKey, data: Json)
    requires LetThrough(w, key, data) && !IsPlatformAuditJob(key.queue, data)
    ensures InnerActive(w, data) && !data.JNull?
    ensures AcceptsWork(OrganisationOf(data), StatusOf(w, OrganisationOf(data)))
    ensures TenantJobAction(KeyStatusOf(w, OrganisationOf(data))) == RunJob
  {
    PlatformExactly(key.queue, data);
    TenantExactly(data);
    hide SaysPlatform, IsPlatformAuditJob, IsTenantPayload;
  }

  /** Time passes, a due job wakes, a worker picks it up, a call returns. */
  predicate IsOrdinary(action: Action) {
    action.Tick? || action.Wake? || action.Pick? || (action.Go? && action.outcome.Return?)
  }

  /** How far an unfinished job is from its end. */
  function Rank(w: World, key: JobKey): nat
    requires key in w.jobs
  {
    match w.jobs[key].place
    case Waiting => 4
    case Delayed(_) => 5
    case Running(a) =>
      if a !in w.acts then 0
      else
        (match w.acts[a].stage
         case Enter => 3
         case KeyGate => 2
         case Processor => 1
         case Moving(_) => 6
         case RateLimiting => 7
         case _ => 0)
    case _ => 0
  }

  function Until(now: nat, wake: int): nat {
    if wake <= now then 0 else wake - now
  }

  /** What brings the job closer to its end. */
  function NextMoves(w: World, key: JobKey): seq<Action>
    requires key in w.jobs && IsUnfinished(w.jobs[key].place)
  {
    match w.jobs[key].place
    case Delayed(wake) => [Tick(Until(w.now, wake)), Wake(key)]
    case Running(a) => [Go(a, Return)]
    case _ => [Pick(key, 0)]
  }

  predicate Closer(w: World, w': World, key: JobKey)
    requires key in w.jobs
  {
    && key in w'.jobs && w'.jobs[key].data == w.jobs[key].data
    && w'.tenants == w.tenants
    && (w'.jobs[key].place == Completed || (IsUnfinished(w'.jobs[key].place) && Rank(w', key) < Rank(w, key)))
  }

  lemma RunOne(w: World, action: Action)
    ensures Run(w, [action]) == Next(w, action)
  {
    hide Next;
    assert [action][..0] == [];
  }

  lemma RunTwo(w: World, first: Action, second: Action)
    ensures Run(w, [first, second]) == Next(Next(w, first), second)
  {
    hide Next;
    assert [first, second][..1] == [first];
    RunOne(w, first);
  }

  lemma EnterCloser(w: World, a: nat, key: JobKey)
    requires a in w.acts && w.acts[a].key == key && key in w.jobs && w.jobs[key].place == Running(a)
    requires w.acts[a].stage.Enter? && LetThrough(w, key, w.acts[a].data)
    ensures Closer(w, EnterGate(w, a), key)
  {
    hide IsPlatformAuditJob, AcceptsWork, OrganisationOf, LetThrough;
    if !IsPlatformAuditJob(key.queue, w.acts[a].data) {
      LetsThrough(w, key, w.acts[a].data);
    }
  }

  lemma StageCloser(w: World, a: nat, key: JobKey)
    requires a in w.acts && w.acts[a].key == key && key in w.jobs && w.jobs[key].place == Running(a)
    requires w.acts[a].stage.Processor?
    ensures Closer(w, PutStage(w, a, Body), key)
  {
  }

  lemma LoggedCloser(w: World, w': World, key: JobKey, e: Event)
    requires key in w.jobs && Closer(w, w', key)
    ensures Closer(w, Logged(w', e), key)
  {
  }

  lemma InnerCloser(w: World, a: nat, key: JobKey)
    requires a in w.acts && w.acts[a].key == key && key in w.jobs && w.jobs[key].place == Running(a)
    requires w.acts[a].stage.Processor? && LetThrough(w, key, w.acts[a].data)
    ensures Closer(w, InnerGate(w, a), key)
  {
    hide IsPlatformAuditJob, OrganisationOf, InnerActive, InnerLook, LetThrough, AUDIT_VERIFY, PutStage, Logged, Closer;
    var act := w.acts[a];
    if IsPlatformAuditJob(key.queue, act.data) {
      PlatformIsAudit(key.queue, act.data);
    } else {
      LetsThrough(w, key, act.data);
    }
    var read := InnerLook(w, a, act.data);
    var started := BodyStarted(a, act.key, act.data, IsPlatformAuditJob(act.key.queue, act.data));
    var body := PutStage(w, a, Body);
    StageCloser(w, a, key);
    LoggedCloser(w, body, key, started);
    LoggedCloser(w, body, key, read);
    LoggedCloser(w, Logged(body, read), key, started);
  }

  lemma ProceedCloser(w: World, a: nat, key: JobKey)
    requires a in w.acts && w.acts[a].key == key && key in w.jobs && w.jobs[key].place == Running(a)
    requires !w.acts[a].stage.Remembering? && LetThrough(w, key, w.acts[a].data)
    requires w.acts[a].stage.KeyGate? ==> !IsPlatformAuditJob(key.queue, w.acts[a].data)
    ensures Closer(w, Proceed(w, a), key)
  {
    hide EnterGate, InnerGate, IsPlatformAuditJob, OrganisationOf, KeyStatusOf, TenantJobAction, LetThrough;
    match w.acts[a].stage
    case Enter => EnterCloser(w, a, key);
    case KeyGate => LetsThrough(w, key, w.acts[a].data);
    case Processor => InnerCloser(w, a, key);
    case _ =>
  }

  lemma GoCloser(w: World, key: JobKey, a: nat)
    requires key in w.jobs && w.jobs[key].place == Running(a) && JobHeld(w, key) && ActHolds(w, a)
    requires LetThrough(w, key, w.jobs[key].data)
    requires a in w.acts && w.acts[a].stage.KeyGate? ==> !IsPlatformAuditJob(key.queue, w.acts[a].data)
    ensures Closer(w, Next(w, Go(a, Return)), key)
  {
    hide Proceed, LetThrough, Closer, IsPlatformAuditJob, RememberPausedJob;
    ProceedCloser(w, a, key);
  }

  lemma WakeCloser(w: World, key: JobKey)
    requires key in w.jobs && w.jobs[key].place.Delayed?
    ensures Closer(w, Next(Next(w, Tick(Until(w.now, w.jobs[key].place.wake))), Wake(key)), key)
  {
  }

  lemma PickCloser(w: World, key: JobKey)
    requires key in w.jobs && w.jobs[key].place == Waiting
    ensures Closer(w, Next(w, Pick(key, 0)), key)
  {
  }

  lemma MovesCloser(actions: seq<Action>, key: JobKey)
    requires var w := Run(EMPTY_WORLD, actions);
      key in w.jobs && IsUnfinished(w.jobs[key].place) && LetThrough(w, key, w.jobs[key].data)
    ensures var w := Run(EMPTY_WORLD, actions);
      Closer(w, Run(w, NextMoves(w, key)), key)
  {
    hide Run, Next, LetThrough, Closer, Holders, IsPlatformAuditJob, OrganisationOf, TenantJobAction, Trace, Gated;
    var w := Run(EMPTY_WORLD, actions);
    RunHolds(actions);
    match w.jobs[key].place
    case Delayed(wake) =>
      RunTwo(w, Tick(Until(w.now, wake)), Wake(key));
      WakeCloser(w, key);
    case Running(a) =>
      RunOne(w, Go(a, Return));
      HolderOf(w, a);
      JobHolder(w, key);
      RunFits(actions, a);
      GoCloser(w, key, a);
    case Waiting =>
      RunOne(w, Pick(key, 0));
      PickCloser(w, key);
    case Completed =>
    case Failed =>
  }

  lemma JobHolder(w: World, key: JobKey)
    requires Holders(w)
    ensures JobHeld(w, key)
  {
  }

  /** Some ordinary continuation completes the job. */
  ghost predicate CanComplete(w: World, key: JobKey) {
    exists more :: (forall action :: action in more ==> IsOrdinary(action)) && CompletesIn(w, more, key)
  }

  predicate CompletesIn(w: World, more: seq<Action>, key: JobKey) {
    key in Run(w, more).jobs && Run(w, more).jobs[key].place == Completed
  }

  lemma CompletesBy(w: World, more: seq<Action>, key: JobKey)
    requires CompletesIn(w, more, key) && forall action :: action in more ==> IsOrdinary(action)
    ensures CanComplete(w, key)
  {
  }

  /** Waiting, active or delayed, and let through. */
  predicate IsRunnable(w: World, key: JobKey) {
    key in w.jobs && IsUnfinished(w.jobs[key].place) && LetThrough(w, key, w.jobs[key].data)
  }

  lemma {:induction false} RunnableFinishes(actions: seq<Action>, key: JobKey)
    requires IsRunnable(Run(EMPTY_WORLD, actions), key)
    ensures CanComplete(Run(EMPTY_WORLD, actions), key)
    decreases Rank(Run(EMPTY_WORLD, actions), key)
  {
    hide Run, Next, LetThrough, Rank, CanComplete;
    var w := Run(EMPTY_WORLD, actions);
    var moves := NextMoves(w, key);
    MovesCloser(actions, key);
    RunConcat(EMPTY_WORLD, actions, moves);
    var w' := Run(w, moves);
    if w'.jobs[key].place == Completed {
      CompletesBy(w, moves, key);
    } else {
      StillThrough(w, w', key, w.jobs[key].data);
      RunnableFinishes(actions + moves, key);
      CompletesLater(w, moves, key);
    }
  }

  /**
   * No job is stuck: in every reachable state, each waiting, active or delayed
   * job whose organisation and key let it through (or which is the platform
   * job) can be run to completion by time passing, a due job waking, a worker
   * picking it up and its calls returning; nothing has to crash, be promoted,
   * or be edited by hand, and what the ledger holds does not matter.
   */
  lemma NoJobIsStuck(actions: seq<Action>, key: JobKey)
    ensures IsRunnable(Run(EMPTY_WORLD, actions), key) ==> CanComplete(Run(EMPTY_WORLD, actions), key)
  {
    hide Run, IsRunnable, CanComplete;
    if IsRunnable(Run(EMPTY_WORLD, actions), key) {
      RunnableFinishes(actions, key);
    }
  }

  lemma StillThrough(w: World, w': World, key: JobKey, data: Json)
    requires w'.tenants == w.tenants && LetThrough(w, key, data)
    ensures LetThrough(w', key, data)
  {
    hide SaysPlatform, SaysTenant;
  }

  lemma CompletesLater(w: World, moves: seq<Action>, key: JobKey)
    requires CanComplete(Run(w, moves), key) && forall action :: action in moves ==> IsOrdinary(action)
    ensures CanComplete(w, key)
  {
    hide Run;
    var more :| (forall action :: action in more ==> IsOrdinary(action)) && CompletesIn(Run(w, moves), more, key);
    RunConcat(w, moves, more);
    CompletesBy(w, moves + more, key);
  }
}
