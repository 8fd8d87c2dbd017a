/**
 * The worker processes, their queues and the tenants' status, at the level of
 * single awaited calls. Anything may happen between two of them: another
 * activation, another process, a status change, a crash.
 */
module WorkerModel {
  import opened Common
  import opened MigrationText
  import opened TenantGates

  datatype JobKey = JobKey(queue: string, id: string)

  datatype Place = Waiting | Running(act: nat) | Delayed(wake: int) | Completed | Failed

  datatype Job = Job(name: string, data: Json, attempts: Option<int>, attemptsMade: nat, place: Place)

  /** Where an activation stands: the call it is about to make. */
  datatype Stage =
    | Enter
    | KeyGate
    | Moving(wake: int)
    | Remembering
    | Processor
    | Rejecting
    | Body
    | RateLimiting

  /**
   * Where in the handler a call stands: at the gates, in the `try` around the
   * processor, or in the queue's `catch`; `Unheld` is a move to delayed that has
   * taken the job out of the handler's hands before it throws.
   */
  datatype Site = AtGates | InProcessor | AtRateLimit | Unheld

  function SiteOf(stage: Stage): (site: Site)
    ensures site != Unheld
  {
    match stage
    case Processor => InProcessor
    case Rejecting => InProcessor
    case Body => InProcessor
    case RateLimiting => AtRateLimit
    case _ => AtGates
  }

  /** One run of the per-queue handler, in process `proc`, on the job as it was fetched. */
  datatype Act = Act(proc: nat, key: JobKey, data: Json, stage: Stage)

  /** A promotion in flight: refs not yet looked up, and the ref whose job was just found. */
  datatype Flight = Flight(pending: set<string>, current: Option<string>, promoted: nat)

  type Owner = (nat, string)

  /** A dead letter its process still has to write. */
  datatype Letter = Letter(proc: nat, key: JobKey, attempts: Option<int>)

  datatype Tenants = Tenants(organisations: map<string, OrganisationStatus>, keys: map<string, KeyStatus>)

  datatype World = World(
    jobs: map<JobKey, Job>,
    acts: map<nat, Act>,
    nextAct: nat,
    ledger: map<Owner, set<string>>,
    flights: map<Owner, Flight>,
    letters: map<nat, Letter>,
    tenants: Tenants,
    now: nat,
    log: seq<Event>)

  datatype Failure = SendThrottled | TenantKeyUnavailable | OtherError

  datatype Event =
    | Added(key: JobKey)
    | OrgRead(act: nat, organisationId: string, found: Option<OrganisationStatus>)
    | KeyRead(act: nat, organisationId: string, status: KeyStatus)
    | InnerRead(act: nat, organisationId: string, parsed: bool, found: Option<OrganisationStatus>)
    | BodyStarted(act: nat, key: JobKey, data: Json, nullChain: bool)
    | Threw(act: nat, key: JobKey, site: Site, err: Failure)
    | Paused(act: nat, key: JobKey, organisationId: string, wake: int, at: nat)
    | LetterDue(act: nat, letter: Letter)
    | DeadLettered(act: nat, letter: Letter)
    | LetterRefused(act: nat, letter: Letter)
    | Noted(owner: Owner, ref: string)
    | Taken(owner: Owner)
    | Promoted(owner: Owner, ref: string)
    | PromotedUnseen(owner: Owner, ref: string)
    | Discarded(owner: Owner, ref: string)
    | Crashed(proc: nat)

  /** How the call an activation is waiting for ends; `unseen` says that it had taken effect before it threw. */
  datatype Outcome = Return | Throw(err: Failure, retryDelay: nat, unseen: bool)

  /** How `promote` ends: it works, it fails, or it works and its reply is lost. */
  datatype Reply = Works | Fails | WorksUnseen

  datatype Action =
    | AddJob(key: JobKey, name: string, data: Json, attempts: Option<int>, delay: nat)
    | RemoveJob(key: JobKey)
    | SetOrganisation(id: string, status: OrganisationStatus)
    | SetKey(id: string, keyStatus: KeyStatus)
    | Tick(ms: nat)
    | Wake(key: JobKey)
    | Pick(key: JobKey, proc: nat)
    | Go(act: nat, outcome: Outcome)
    | WriteLetter(act: nat, up: bool)
    | Crash(proc: nat)
    | Take(owner: Owner)
    | LookUp(owner: Owner, ref: string, up: bool)
    | Promote(owner: Owner, reply: Reply)
    | Finish(owner: Owner)

  const EMPTY_WORLD := World(map[], map[], 0, map[], map[], map[], Tenants(map[], map[]), 0, [])

  function Logged(w: World, e: Event): World {
    w.(log := w.log + [e])
  }

  function PlaceAfter(now: nat, delay: nat): Place {
    if delay == 0 then Waiting else Delayed(now + delay)
  }

  // ---- Queue ------------------------------------------------------------------

  /** Adding an id that is present is a no-op, as BullMQ de-duplicates. */
  function DoAdd(w: World, key: JobKey, name: string, data: Json, attempts: Option<int>, delay: nat): World {
    if key in w.jobs || key.queue !in QUEUE_NAMES || key.id == "" then w
    else Logged(w.(jobs := w.jobs[key := Job(name, data, attempts, 0, PlaceAfter(w.now, delay))]), Added(key))
  }

  /** A job whose lock is held cannot be removed. */
  function DoRemove(w: World, key: JobKey): World {
    if key in w.jobs && !w.jobs[key].place.Running? then w.(jobs := w.jobs - {key}) else w
  }

  function PutJob(w: World, key: JobKey, place: Place): World
    requires key in w.jobs
  {
    w.(jobs := w.jobs[key := w.jobs[key].(place := place)])
  }

  function DoWake(w: World, key: JobKey): World {
    if key in w.jobs && w.jobs[key].place.Delayed? && w.jobs[key].place.wake <= w.now
    then PutJob(w, key, Waiting) else w
  }

  function DoPick(w: World, key: JobKey, proc: nat): World {
    if key in w.jobs && w.jobs[key].place == Waiting then
      PutJob(w, key, Running(w.nextAct)).(
        acts := w.acts[w.nextAct := Act(proc, key, w.jobs[key].data, Enter)], nextAct := w.nextAct + 1)
    else w
  }

  // ---- The handler ------------------------------------------------------------

  function PutStage(w: World, a: nat, stage: Stage): World
    requires a in w.acts
  {
    w.(acts := w.acts[a := w.acts[a].(stage := stage)])
  }

  /** The activation ends and its job goes to `place`. */
  function EndAt(w: World, a: nat, place: Place): World
    requires a in w.acts && w.acts[a].key in w.jobs
  {
    PutJob(w, w.acts[a].key, place).(acts := w.acts - {a})
  }

  /** `tenantJobSchema`, without the UUID syntax of the organisation id. */
  predicate IsTenantPayload(data: Json) {
    && data.JObject? && Field(data, "organisationId").JString?
    && Field(data, "correlationId").JString? && 1 <= |Trim(Field(data, "correlationId").s)| <= 512
  }

  function StatusOf(w: World, organisationId: string): Option<OrganisationStatus> {
    if organisationId in w.tenants.organisations then Some(w.tenants.organisations[organisationId]) else None
  }

  predicate InnerActive(w: World, data: Json) {
    IsTenantPayload(data) && StatusOf(w, OrganisationOf(data)) == Some(Active)
  }

  /** What the outer gate reads. */
  function OuterLook(w: World, a: nat, data: Json): Event {
    OrgRead(a, OrganisationOf(data), StatusOf(w, OrganisationOf(data)))
  }

  /** What the inner gate reads: the payload, and the organisation's status when it parses. */
  function InnerLook(w: World, a: nat, data: Json): Event {
    InnerRead(a, OrganisationOf(data), IsTenantPayload(data),
              if IsTenantPayload(data) then StatusOf(w, OrganisationOf(data)) else None)
  }

  function KeyStatusOf(w: World, organisationId: string): KeyStatus {
    if organisationId in w.tenants.keys then w.tenants.keys[organisationId] else NoKey
  }

  function EnterGate(w: World, a: nat): World
    requires a in w.acts && w.acts[a].key in w.jobs
  {
    var act := w.acts[a];
    if IsPlatformAuditJob(act.key.queue, act.data) then PutStage(w, a, Processor)
    else if act.data.JNull? then w // reading `null.organisationId` can only throw
    else
      var accepted := AcceptsWork(OrganisationOf(act.data), StatusOf(w, OrganisationOf(act.data)));
      Logged(if accepted then PutStage(w, a, KeyGate) else EndAt(w, a, Completed), OuterLook(w, a, act.data))
  }

  function ReadKey(w: World, a: nat): World
    requires a in w.acts
  {
    var organisationId := OrganisationOf(w.acts[a].data);
    var status := KeyStatusOf(w, organisationId);
    var stage := if TenantJobAction(status) == RunJob then Processor else Moving(w.now + TENANT_KEY_PAUSE_MS);
    Logged(PutStage(w, a, stage), KeyRead(a, organisationId, status))
  }

  function MoveToDelayed(w: World, a: nat, wake: int): World
    requires a in w.acts && w.acts[a].key in w.jobs
  {
    var act := w.acts[a];
    Logged(PutStage(PutJob(w, act.key, Delayed(wake)), a, Remembering),
           Paused(a, act.key, OrganisationOf(act.data), wake, w.now))
  }

  /** A move to delayed that throws after it has taken effect. */
  predicate IsLostMove(stage: Stage, outcome: Outcome) {
    stage.Moving? && outcome.Throw? && outcome.unseen
  }

  /**
   * The move takes effect and its reply is lost. The job is delayed and its lock
   * gone, so what BullMQ then makes of the error spends no attempt, and the
   * handler does not get to note the ref.
   */
  function LoseMove(w: World, a: nat, wake: int, err: Failure): World
    requires a in w.acts && w.acts[a].key in w.jobs
  {
    var act := w.acts[a];
    Logged(Logged(EndAt(w, a, Delayed(wake)), Paused(a, act.key, OrganisationOf(act.data), wake, w.now)),
           Threw(a, act.key, Unheld, err))
  }

  function Refs(w: World, owner: Owner): set<string> {
    if owner in w.ledger then w.ledger[owner] else {}
  }

  function Note(w: World, owner: Owner, ref: string): World {
    w.(ledger := w.ledger[owner := Refs(w, owner) + {ref}])
  }

  function RememberPausedJob(w: World, a: nat): World
    requires a in w.acts
  {
    var act := w.acts[a];
    var owner := (act.proc, OrganisationOf(act.data));
    var ref := MakeRef(act.key.queue, act.key.id);
    Logged(Note(w, owner, ref).(acts := w.acts - {a}), Noted(owner, ref))
  }

  /**
   * `withAuditChain` around `withActiveTenant`; only the audit queue has the
   * outer wrapper. A rejected job ends once its audit record is written.
   */
  function InnerGate(w: World, a: nat): World
    requires a in w.acts && w.acts[a].key in w.jobs
  {
    var act := w.acts[a];
    var started := BodyStarted(a, act.key, act.data, IsPlatformAuditJob(act.key.queue, act.data));
    if act.key.queue == AUDIT_VERIFY && IsPlatformAuditJob(act.key.queue, act.data) then
      Logged(PutStage(w, a, Body), started)
    else if InnerActive(w, act.data) then
      Logged(Logged(PutStage(w, a, Body), InnerLook(w, a, act.data)), started)
    else Logged(PutStage(w, a, Rejecting), InnerLook(w, a, act.data))
  }

  /**
   * BullMQ's part of a failure: spend an attempt, then retry or give up. The
   * `failed` handler then owes an exhausted scan a dead letter.
   */
  function Fail(w: World, a: nat, err: Failure, retryDelay: nat): World
    requires a in w.acts && w.acts[a].key in w.jobs
  {
    var act := w.acts[a];
    var job := w.jobs[act.key];
    var spent := job.(attemptsMade := job.attemptsMade + 1,
                      place := if Retries(job.attemptsMade, job.attempts)
                               then PlaceAfter(w.now, retryDelay) else Failed);
    var ended := Logged(w.(jobs := w.jobs[act.key := spent], acts := w.acts - {a}),
                        Threw(a, act.key, SiteOf(act.stage), err));
    var letter := Letter(act.proc, act.key, job.attempts);
    if DeadLetters(act.key.queue, spent)
    then Logged(ended.(letters := ended.letters[a := letter]), LetterDue(a, letter))
    else ended
  }

  predicate DeadLetters(queue: string, job: Job) {
    && queue == MALWARE_SCAN && Exhausted(job.attemptsMade, job.attempts)
    && job.name == "scan" && Field(job.data, "evidenceId").JString? && Field(job.data, "evidenceId").s != ""
  }

  /**
   * What the handler makes of an error: a key pause, a paused queue, or a
   * failure. An error of the queue's own `catch` is not caught again.
   */
  function OnError(w: World, a: nat, err: Failure, retryDelay: nat): World
    requires a in w.acts && w.acts[a].key in w.jobs
  {
    var act := w.acts[a];
    if SiteOf(act.stage) == InProcessor && act.key.queue == MALWARE_SCAN && err == TenantKeyUnavailable then
      Logged(PutStage(w, a, Moving(w.now + TENANT_KEY_PAUSE_MS)), Threw(a, act.key, SiteOf(act.stage), err))
    else if SiteOf(act.stage) != AtRateLimit && HasLimiter(act.key.queue) && err == SendThrottled then
      Logged(PutStage(w, a, RateLimiting), Threw(a, act.key, SiteOf(act.stage), err))
    else Fail(w, a, err, retryDelay)
  }

  function Proceed(w: World, a: nat): World
    requires a in w.acts && w.acts[a].key in w.jobs
  {
    match w.acts[a].stage
    case Enter => EnterGate(w, a)
    case KeyGate => ReadKey(w, a)
    case Moving(wake) => MoveToDelayed(w, a, wake)
    case Remembering => RememberPausedJob(w, a)
    case Processor => InnerGate(w, a)
    case Rejecting => EndAt(w, a, Completed)
    case Body => EndAt(w, a, Completed)
    case RateLimiting => EndAt(w, a, Waiting)
  }

  /** Once the job is delayed the activation no longer holds it, and noting the ref cannot throw. */
  function DoGo(w: World, a: nat, outcome: Outcome): World {
    if a !in w.acts then w
    else if w.acts[a].stage.Remembering? then RememberPausedJob(w, a)
    else if w.acts[a].key !in w.jobs then w
    else
      match outcome
      case Return => Proceed(w, a)
      case Throw(err, retryDelay, _) =>
        if IsLostMove(w.acts[a].stage, outcome) then LoseMove(w, a, w.acts[a].stage.wake, err)
        else OnError(w, a, err, retryDelay)
  }

  /** The `failed` handler's write; nothing waits for it. */
  function DoWrite(w: World, a: nat, up: bool): World {
    if a !in w.letters then w
    else Logged(w.(letters := w.letters - {a}),
                if up then DeadLettered(a, w.letters[a]) else LetterRefused(a, w.letters[a]))
  }

  // ---- Crash ------------------------------------------------------------------

  predicate RunsIn(w: World, proc: nat, job: Job) {
    job.place.Running? && job.place.act in w.acts && w.acts[job.place.act].proc == proc
  }

  /** A killed active job goes back to waiting; it spends no attempt. */
  function DoCrash(w: World, proc: nat): World {
    Logged(w.(
      jobs := map key | key in w.jobs ::
        if RunsIn(w, proc, w.jobs[key]) then w.jobs[key].(place := Waiting) else w.jobs[key],
      acts := map a | a in w.acts && w.acts[a].proc != proc :: w.acts[a],
      ledger := map owner: Owner | owner in w.ledger && owner.0 != proc :: w.ledger[owner],
      flights := map owner: Owner | owner in w.flights && owner.0 != proc :: w.flights[owner],
      letters := map a | a in w.letters && w.letters[a].proc != proc :: w.letters[a]),
      Crashed(proc))
  }

  // ---- Promotion --------------------------------------------------------------

  /** One sweep per process is in flight, and it resumes a tenant at most once. */
  function DoTake(w: World, owner: Owner): World {
    if owner in w.flights then w
    else Logged(w.(ledger := w.ledger - {owner}, flights := w.flights[owner := Flight(Refs(w, owner), None, 0)]),
                Taken(owner))
  }

  function KeyOf(ref: string): JobKey
    requires SplitRef(ref).Some?
  {
    JobKey(SplitRef(ref).value.0, SplitRef(ref).value.1)
  }

  function PutFlight(w: World, owner: Owner, flight: Flight): World {
    w.(flights := w.flights[owner := flight])
  }

  /** `splitRef`, then `getJob`; `rest` is the flight without the ref. */
  function LookUpOne(w: World, owner: Owner, rest: Flight, ref: string, up: bool): World {
    if SplitRef(ref).None? then PutFlight(w, owner, rest)
    else if !up then Note(PutFlight(w, owner, rest), owner, ref)
    else if KeyOf(ref) !in w.jobs then Logged(PutFlight(w, owner, rest), Discarded(owner, ref))
    else PutFlight(w, owner, rest.(current := Some(ref)))
  }

  predicate CanLookUp(w: World, owner: Owner, ref: string) {
    owner in w.flights && w.flights[owner].current.None? && ref in w.flights[owner].pending
  }

  function DoLookUp(w: World, owner: Owner, ref: string, up: bool): World {
    if CanLookUp(w, owner, ref)
    then LookUpOne(w, owner, w.flights[owner].(pending := w.flights[owner].pending - {ref}), ref, up)
    else w
  }

  /** `job.promote()`: it throws unless the job is delayed, and perhaps after it has taken effect. */
  function PromoteOne(w: World, owner: Owner, rest: Flight, ref: string, reply: Reply): World {
    if SplitRef(ref).None? || reply == Fails || KeyOf(ref) !in w.jobs || !w.jobs[KeyOf(ref)].place.Delayed? then
      Note(PutFlight(w, owner, rest), owner, ref)
    else if reply == WorksUnseen then
      Logged(Note(PutFlight(PutJob(w, KeyOf(ref), Waiting), owner, rest), owner, ref), PromotedUnseen(owner, ref))
    else
      Logged(PutFlight(PutJob(w, KeyOf(ref), Waiting), owner, rest.(promoted := rest.promoted + 1)),
             Promoted(owner, ref))
  }

  function DoPromote(w: World, owner: Owner, reply: Reply): World {
    if owner in w.flights && w.flights[owner].current.Some?
    then PromoteOne(w, owner, w.flights[owner].(current := None), w.flights[owner].current.value, reply)
    else w
  }

  function DoFinish(w: World, owner: Owner): World {
    if owner in w.flights && w.flights[owner].pending == {} && w.flights[owner].current.None?
    then w.(flights := w.flights - {owner}) else w
  }

  // ---- Runs -------------------------------------------------------------------

  function Next(w: World, action: Action): World {
    match action
    case AddJob(key, name, data, attempts, delay) => DoAdd(w, key, name, data, attempts, delay)
    case RemoveJob(key) => DoRemove(w, key)
    case SetOrganisation(id, status) =>
      w.(tenants := w.tenants.(organisations := w.tenants.organisations[id := status]))
    case SetKey(id, keyStatus) => w.(tenants := w.tenants.(keys := w.tenants.keys[id := keyStatus]))
    case Tick(ms) => w.(now := w.now + ms)
    case Wake(key) => DoWake(w, key)
    case Pick(key, proc) => DoPick(w, key, proc)
    case Go(a, outcome) => DoGo(w, a, outcome)
    case Crash(proc) => DoCrash(w, proc)
    case Take(owner) => DoTake(w, owner)
    case LookUp(owner, ref, up) => DoLookUp(w, owner, ref, up)
    case WriteLetter(a, up) => DoWrite(w, a, up)
    case Promote(owner, reply) => DoPromote(w, owner, reply)
    case Finish(owner) => DoFinish(w, owner)
  }

  function Run(w: World, actions: seq<Action>): World {
    if actions == [] then w else Next(Run(w, actions[..|actions| - 1]), actions[|actions| - 1])
  }

  lemma {:induction false} RunConcat(w: World, first: seq<Action>, second: seq<Action>)
    ensures Run(w, first + second) == Run(Run(w, first), second)
  {
    hide Next;
    if second == [] {
      assert first + second == first;
    } else {
      var all := first + second;
      assert all[..|all| - 1] == first + second[..|second| - 1];
      RunConcat(w, first, second[..|second| - 1]);
    }
  }
}
