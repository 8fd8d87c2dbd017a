/**
 * Gate safety: what every activation read, and in which order, before the body
 * of its processor ran.
 */
module WorkerGates {
  import opened Common
  import opened MigrationText
  import opened TenantGates
  import opened WorkerModel
  import opened WorkerLog
  import opened WorkerPlaces

  predicate IsBy(e: Event, a: nat) {
    (e.OrgRead? || e.KeyRead? || e.InnerRead? || e.BodyStarted? || e.Threw? || e.Paused?) && e.act == a
  }

  /** What one activation did, in the order it did it. */
  function Trace(log: seq<Event>, a: nat): seq<Event> {
    if log == [] then []
    else Trace(log[..|log| - 1], a) + if IsBy(log[|log| - 1], a) then [log[|log| - 1]] else []
  }

  lemma {:induction false} TraceConcat(log: seq<Event>, es: seq<Event>, a: nat)
    ensures Trace(log + es, a) == Trace(log, a) + Trace(es, a)
  {
    hide IsBy;
    if es == [] {
      assert log + es == log;
    } else {
      var all := log + es;
      assert all[..|all| - 1] == log + es[..|es| - 1];
      TraceConcat(log, es[..|es| - 1], a);
    }
  }

  lemma {:induction false} TraceOfOthers(es: seq<Event>, a: nat)
    requires forall e :: e in es ==> !IsBy(e, a)
    ensures Trace(es, a) == []
  {
    if es != [] {
      TraceOfOthers(es[..|es| - 1], a);
    }
  }

  /** The platform audit payload, in the audit queue. */
  predicate SaysPlatform(queue: string, data: Json) {
    && queue == "audit-verify" && data.JObject?
    && "platformChain" in data.fields && data.fields["platformChain"] == JBool(true)
    && "organisationId" in data.fields && data.fields["organisationId"] == JString("platform")
    && "correlationId" in data.fields && data.fields["correlationId"].JString?
    && Trim(data.fields["correlationId"].s) != ""
  }

  /** A payload with an organisation and a correlation id of 1 to 512 characters, trimmed. */
  predicate SaysTenant(data: Json) {
    && data.JObject?
    && "organisationId" in data.fields && data.fields["organisationId"].JString?
    && "correlationId" in data.fields && data.fields["correlationId"].JString?
    && 1 <= |Trim(data.fields["correlationId"].s)| <= 512
  }

  lemma PlatformExactly(queue: string, data: Json)
    ensures IsPlatformAuditJob(queue, data) <==> SaysPlatform(queue, data)
  {
    hide Trim;
  }

  lemma TenantExactly(data: Json)
    ensures IsTenantPayload(data) <==> SaysTenant(data)
    ensures SaysTenant(data) ==> OrganisationOf(data) == data.fields["organisationId"].s
  {
    hide Trim;
  }

  /** The organisation was found, and is neither suspended nor closed. */
  predicate OrganisationWorks(e: Event, a: nat, organisationId: string) {
    && e.OrgRead? && e.act == a && e.organisationId == organisationId != ""
    && e.found.Some? && e.found.value != Suspended && e.found.value != Closed
  }

  /** The organisation has no key, or an active one. */
  predicate KeyWorks(e: Event, a: nat, organisationId: string) {
    e.KeyRead? && e.act == a && e.organisationId == organisationId && e.status in {NoKey, KeyActive}
  }

  /** The payload parsed, and the organisation was found active. */
  predicate OrganisationIsActive(e: Event, a: nat, organisationId: string) {
    e.InnerRead? && e.act == a && e.organisationId == organisationId && e.parsed && e.found == Some(Active)
  }

  /** The reads that let a tenant job through, for the organisation its payload names. */
  predicate PassedGates(seen: seq<Event>, a: nat, data: Json) {
    && |seen| == 3 && SaysTenant(data)
    && OrganisationWorks(seen[0], a, data.fields["organisationId"].s)
    && KeyWorks(seen[1], a, data.fields["organisationId"].s)
    && OrganisationIsActive(seen[2], a, data.fields["organisationId"].s)
  }

  /** A body is the first thing the activation did, on the platform payload, or the fourth, past three gates. */
  predicate BodyIsGated(trace: seq<Event>, a: nat, i: nat)
    requires i < |trace|
  {
    trace[i].BodyStarted? ==>
      if SaysPlatform(trace[i].key.queue, trace[i].data)
      then i == 0 && trace[i].nullChain
      else i == 3 && !trace[i].nullChain && PassedGates(trace[..3], a, trace[i].data)
  }

  ghost predicate Gated(trace: seq<Event>, a: nat) {
    forall i :: 0 <= i < |trace| ==> BodyIsGated(trace, a, i)
  }

  lemma GatedGrows(trace: seq<Event>, more: seq<Event>, a: nat)
    requires Gated(trace, a)
    requires forall i :: |trace| <= i < |trace + more| ==> BodyIsGated(trace + more, a, i)
    ensures Gated(trace + more, a)
  {
    hide PassedGates, SaysPlatform;
    forall i | 0 <= i < |trace + more|
      ensures BodyIsGated(trace + more, a, i)
    {
      if i < |trace| {
        assert BodyIsGated(trace, a, i);
        assert |trace| >= 3 ==> (trace + more)[..3] == trace[..3];
      }
    }
  }

  /** What an activation has done, by the stage it has reached. */
  predicate StageFits(act: Act, trace: seq<Event>, a: nat) {
    var org := OrganisationOf(act.data);
    var platform := IsPlatformAuditJob(act.key.queue, act.data);
    match act.stage
    case Enter => trace == []
    case KeyGate => !platform && |trace| == 1 && OrganisationWorks(trace[0], a, org)
    case Processor =>
      if platform then trace == []
      else
        |trace| == 2 && OrganisationWorks(trace[0], a, org) && KeyWorks(trace[1], a, org)
    case _ => true
  }

  ghost predicate TraceFits(w: World, a: nat) {
    && Gated(Trace(w.log, a), a)
    && (a >= w.nextAct ==> Trace(w.log, a) == [])
    && (a in w.acts ==> StageFits(w.acts[a], Trace(w.log, a), a))
  }

  // ---- One activation ---------------------------------------------------------

  lemma OnlyItself(w: World, a: nat, outcome: Outcome, b: nat)
    requires b != a
    ensures Trace(DoGo(w, a, outcome).log, b) == Trace(w.log, b)
  {
    hide IsPlatformAuditJob, OrganisationOf, AcceptsWork, InnerActive, KeyStatusOf, MakeRef, AUDIT_VERIFY,
         DoGo, Excused, DeadLetters, SiteOf, Trace;
    GoLogs(w, a, outcome);
    TraceConcat(w.log, GoEvents(w, a, outcome), b);
    TraceOfOthers(GoEvents(w, a, outcome), b);
  }

  lemma GoKeepsOthers(w: World, a: nat, outcome: Outcome, b: nat)
    requires Holders(w) && TraceFits(w, b) && b != a
    ensures TraceFits(DoGo(w, a, outcome), b)
  {
    hide Holders, DoGo, Trace, Gated, StageFits;
    OnlyItself(w, a, outcome, b);
    HolderOf(w, a);
    if a in w.acts {
      GoMoves(w, a, outcome);
    } else {
      UnknownGo(w, a, outcome);
    }
  }

  /** A step that starts no body extends the trace by at most one event. */
  lemma QuietStep(log: seq<Event>, es: seq<Event>, a: nat)
    requires Gated(Trace(log, a), a) && forall e :: e in es ==> !e.BodyStarted?
    ensures Gated(Trace(log + es, a), a)
  {
    hide IsBy, PassedGates, SaysPlatform;
    TraceConcat(log, es, a);
    TraceMembers(es, a);
    GatedGrows(Trace(log, a), Trace(es, a), a);
  }

  lemma {:induction false} TraceMembers(es: seq<Event>, a: nat)
    ensures forall e :: e in Trace(es, a) ==> e in es
  {
    hide IsBy;
    if es != [] {
      TraceMembers(es[..|es| - 1], a);
    }
  }

  lemma TraceOfOne(e: Event, a: nat)
    requires IsBy(e, a)
    ensures Trace([e], a) == [e]
  {
    assert Trace([e][..0], a) == [];
  }

  lemma EnterStage(w: World, a: nat)
    requires a in w.acts && w.acts[a].key in w.jobs && w.acts[a].stage.Enter?
    ensures
      var w' := EnterGate(w, a);
      var platform := IsPlatformAuditJob(w.acts[a].key.queue, w.acts[a].data);
      && w'.nextAct == w.nextAct
      && (a in w'.acts ==> w'.acts[a] == w.acts[a].(stage := w'.acts[a].stage))
      && (a in w'.acts && platform ==> w'.acts[a].stage == Processor)
      && (a in w'.acts && !platform && ProceedEvents(w, a) == [] ==> w'.acts[a].stage == Enter)
      && (a in w'.acts && !platform && ProceedEvents(w, a) != [] ==>
            && w'.acts[a].stage == KeyGate && |ProceedEvents(w, a)| == 1
            && OrganisationWorks(ProceedEvents(w, a)[0], a, OrganisationOf(w.acts[a].data)))
  {
    hide IsPlatformAuditJob, OrganisationOf;
  }

  lemma EnterFits(w: World, a: nat)
    requires a in w.acts && w.acts[a].key in w.jobs && w.acts[a].stage.Enter? && a < w.nextAct && TraceFits(w, a)
    ensures TraceFits(EnterGate(w, a), a)
  {
    hide Trace, Gated, IsPlatformAuditJob, OrganisationOf, OrganisationWorks, EnterGate;
    var es := ProceedEvents(w, a);
    EnterLogs(w, a);
    EnterStage(w, a);
    QuietStep(w.log, es, a);
    TraceConcat(w.log, es, a);
    if es == [] {
      assert w.log + es == w.log;
    } else {
      TraceOfOne(es[0], a);
    }
  }

  lemma KeyGateFits(w: World, a: nat)
    requires a in w.acts && w.acts[a].key in w.jobs && w.acts[a].stage.KeyGate? && a < w.nextAct && TraceFits(w, a)
    ensures TraceFits(ReadKey(w, a), a)
  {
    hide Trace, Gated, IsPlatformAuditJob, OrganisationOf, OrganisationWorks, KeyStatusOf;
    var es := ProceedEvents(w, a);
    QuietStep(w.log, es, a);
    TraceConcat(w.log, es, a);
    TraceOfOne(es[0], a);
  }

  lemma PlatformIsAudit(queue: string, data: Json)
    requires IsPlatformAuditJob(queue, data)
    ensures queue == AUDIT_VERIFY
  {
  }

  lemma TraceOfTwo(e: Event, e2: Event, a: nat)
    requires IsBy(e, a) && IsBy(e2, a)
    ensures Trace([e, e2], a) == [e, e2]
  {
    TraceOfOne(e, a);
    assert [e, e2][..1] == [e];
  }

  /** Past the three gates, the body that starts is that of a tenant job. */
  lemma PastTheGates(act: Act, trace: seq<Event>, look: Event, a: nat)
    requires act.stage.Processor? && StageFits(act, trace, a) && Gated(trace, a)
    requires !IsPlatformAuditJob(act.key.queue, act.data) && IsTenantPayload(act.data)
    requires OrganisationIsActive(look, a, OrganisationOf(act.data))
    ensures Gated(trace + [look, BodyStarted(a, act.key, act.data, false)], a)
  {
    PlatformExactly(act.key.queue, act.data);
    TenantExactly(act.data);
    hide IsPlatformAuditJob, OrganisationOf, SaysPlatform, SaysTenant, IsTenantPayload, KeyWorks, OrganisationWorks;
    var more := [look, BodyStarted(a, act.key, act.data, false)];
    assert (trace + more)[..3] == trace + [more[0]];
    GatedGrows(trace, more, a);
  }

  lemma AtTheStart(act: Act, a: nat)
    requires IsPlatformAuditJob(act.key.queue, act.data)
    ensures Gated([BodyStarted(a, act.key, act.data, true)], a)
  {
    PlatformExactly(act.key.queue, act.data);
    hide IsPlatformAuditJob, SaysPlatform;
  }

  lemma InnerFits(w: World, a: nat)
    requires a in w.acts && w.acts[a].key in w.jobs && w.acts[a].stage.Processor? && a < w.nextAct && TraceFits(w, a)
    ensures TraceFits(InnerGate(w, a), a)
  {
    hide Trace, Gated, OrganisationOf, AUDIT_VERIFY, IsPlatformAuditJob, IsTenantPayload, OrganisationWorks, KeyWorks;
    var act := w.acts[a];
    var es := ProceedEvents(w, a);
    var trace := Trace(w.log, a);
    InnerLogs(w, a);
    TraceConcat(w.log, es, a);
    if IsPlatformAuditJob(act.key.queue, act.data) {
      PlatformIsAudit(act.key.queue, act.data);
      TraceOfOne(es[0], a);
      AtTheStart(act, a);
      assert trace + es == es;
    } else if InnerActive(w, act.data) {
      TraceOfTwo(es[0], es[1], a);
      PastTheGates(act, trace, es[0], a);
    } else {
      QuietStep(w.log, es, a);
    }
  }

  lemma ProceedFits(w: World, a: nat)
    requires a in w.acts && w.acts[a].key in w.jobs && a < w.nextAct && TraceFits(w, a)
    ensures TraceFits(Proceed(w, a), a)
  {
    hide Trace, Gated, EnterGate, ReadKey, InnerGate, OrganisationOf, MakeRef, Refs, IsPlatformAuditJob;
    match w.acts[a].stage
    case Enter => EnterFits(w, a);
    case KeyGate => KeyGateFits(w, a);
    case Processor => InnerFits(w, a);
    case _ =>
      ProceedLogs(w, a);
      QuietStep(w.log, ProceedEvents(w, a), a);
      assert w.log + [] == w.log;
  }

  lemma ThrowFits(w: World, a: nat, err: Failure, retryDelay: nat)
    requires a in w.acts && w.acts[a].key in w.jobs && a < w.nextAct && TraceFits(w, a)
    ensures TraceFits(OnError(w, a, err, retryDelay), a)
  {
    hide Trace, Gated, OnError, SiteOf, Excused, DeadLetters, IsPlatformAuditJob, OrganisationOf;
    ErrorStage(w, a, err, retryDelay);
    ThrowLogs(w, a, err, retryDelay);
    QuietStep(w.log, ThrowEvents(w, a, err), a);
  }

  lemma LostMoveFits(w: World, a: nat, err: Failure)
    requires a in w.acts && w.acts[a].key in w.jobs && w.acts[a].stage.Moving? && a < w.nextAct && TraceFits(w, a)
    ensures TraceFits(LoseMove(w, a, w.acts[a].stage.wake, err), a)
  {
    hide Trace, Gated, IsPlatformAuditJob, OrganisationOf;
    LostMoveLogs(w, a, err);
    QuietStep(w.log, LostMoveEvents(w, a, err), a);
  }

  lemma GoKeepsItself(w: World, a: nat, outcome: Outcome)
    requires Holders(w) && TraceFits(w, a)
    ensures TraceFits(DoGo(w, a, outcome), a)
  {
    hide Holders, Proceed, OnError, LoseMove, TraceFits;
    HolderOf(w, a);
    if a in w.acts {
      if w.acts[a].stage.Remembering? {
        RememberFits(w, a);
      } else if w.acts[a].key in w.jobs {
        match outcome
        case Return => ProceedFits(w, a);
        case Throw(err, retryDelay, _) =>
          if IsLostMove(w.acts[a].stage, outcome) {
            LostMoveFits(w, a, err);
          } else {
            ThrowFits(w, a, err, retryDelay);
          }
      }
    }
  }

  lemma RememberFits(w: World, a: nat)
    requires a in w.acts && w.acts[a].stage.Remembering? && a < w.nextAct && TraceFits(w, a)
    ensures TraceFits(RememberPausedJob(w, a), a)
  {
    hide Trace, Gated, OrganisationOf, MakeRef, Refs;
    RememberLogs(w, a);
    QuietStep(w.log, ProceedEvents(w, a), a);
  }

  // ---- All runs ---------------------------------------------------------------

  lemma OthersKeepTrace(w: World, action: Action, a: nat)
    requires !action.Go?
    ensures Trace(Next(w, action).log, a) == Trace(w.log, a)
  {
    hide Next;
    OthersLog(w, action);
    var log := Next(w, action).log;
    if log != w.log {
      assert log == w.log + [log[|log| - 1]];
      TraceConcat(w.log, [log[|log| - 1]], a);
    }
  }

  lemma OthersKeepTraces(w: World, action: Action, a: nat)
    requires !action.Go? && Holders(w) && TraceFits(w, a)
    ensures TraceFits(Next(w, action), a)
  {
    hide Holders, Trace, Gated, KeepsActive, RunsIn, IsPlatformAuditJob, OrganisationOf;
    HolderOf(w, a);
    OthersKeepTrace(w, action, a);
    if !action.Pick? && !action.Crash? {
      ActsKept(w, action);
    }
  }

  lemma ActsKept(w: World, action: Action)
    requires !action.Go? && !action.Pick? && !action.Crash?
    ensures Next(w, action).acts == w.acts && Next(w, action).nextAct == w.nextAct
  {
    hide Next;
    OthersKeepActive(w, action);
  }

  lemma NextKeepsTraces(w: World, action: Action, a: nat)
    requires Holders(w) && TraceFits(w, a)
    ensures TraceFits(Next(w, action), a)
  {
    hide Holders, TraceFits, DoGo;
    if action.Go? && action.act == a {
      GoKeepsItself(w, a, action.outcome);
    } else if action.Go? {
      GoKeepsOthers(w, action.act, action.outcome, a);
    } else {
      OthersKeepTraces(w, action, a);
    }
  }

  lemma {:induction false} RunFits(actions: seq<Action>, a: nat)
    ensures TraceFits(Run(EMPTY_WORLD, actions), a)
  {
    if actions != [] {
      hide Next, TraceFits, Holders;
      var before := actions[..|actions| - 1];
      RunFits(before, a);
      RunHolds(before);
      NextKeepsTraces(Run(EMPTY_WORLD, before), actions[|actions| - 1], a);
    }
  }

  /**
   * Gate safety, over every run: the body of a tenant job starts only after the
   * same activation, in this order, found the organisation accepting work, its
   * key absent or active, and the organisation active. It works on the null
   * chain exactly when its payload is the platform audit job, and then the
   * activation made none of those reads.
   */
  lemma BodiesAreGated(actions: seq<Action>, a: nat)
    ensures Gated(Trace(Run(EMPTY_WORLD, actions).log, a), a)
  {
    RunFits(actions, a);
  }

  /** Nothing but the activation's stage has changed, and the log. */
  predicate GoesTo(w: World, w': World, a: nat, stage: Stage)
    requires a in w.acts
  {
    w' == w.(acts := w.acts[a := w.acts[a].(stage := stage)], log := w'.log)
  }

  /** The activation is over and its job goes to `place`; nothing else has changed, but the log. */
  predicate GoesHome(w: World, w': World, a: nat, place: Place)
    requires a in w.acts && w.acts[a].key in w.jobs
  {
    var key := w.acts[a].key;
    w' == w.(acts := w.acts - {a}, jobs := w.jobs[key := w.jobs[key].(place := place)], log := w'.log)
  }

  /** The organisation exists and is neither suspended nor closed. */
  predicate MayWork(tenants: Tenants, org: string) {
    && org != "" && org in tenants.organisations
    && tenants.organisations[org] != Suspended && tenants.organisations[org] != Closed
  }

  /** What the outer gate does: a job goes on exactly when its organisation may work, and else it ends. */
  predicate EnterDecides(w: World, w': World, a: nat)
    requires a in w.acts && w.acts[a].key in w.jobs
  {
    if SaysPlatform(w.acts[a].key.queue, w.acts[a].data) then GoesTo(w, w', a, Processor) && w'.log == w.log
    else
      && (if MayWork(w.tenants, OrganisationOf(w.acts[a].data)) then GoesTo(w, w', a, KeyGate)
          else GoesHome(w, w', a, Completed))
      && w'.log == w.log + [OuterLook(w, a, w.acts[a].data)]
  }

  /** What the key gate does: a job goes on exactly when its key is absent or active, and else waits thirty seconds. */
  predicate KeyDecides(w: World, w': World, a: nat)
    requires a in w.acts
  {
    var org := OrganisationOf(w.acts[a].data);
    && (if org in w.tenants.keys && w.tenants.keys[org] !in {NoKey, KeyActive}
        then GoesTo(w, w', a, Moving(w.now + 30_000)) else GoesTo(w, w', a, Processor))
    && w'.log == w.log + [KeyRead(a, org, if org in w.tenants.keys then w.tenants.keys[org] else NoKey)]
  }

  /** What the inner gate does: the body starts exactly for a platform job or a well-formed one of an active tenant. */
  predicate InnerDecides(w: World, w': World, a: nat)
    requires a in w.acts
  {
    var org := OrganisationOf(w.acts[a].data);
    if SaysPlatform(w.acts[a].key.queue, w.acts[a].data) then GoesTo(w, w', a, Body)
    else if SaysTenant(w.acts[a].data) && org in w.tenants.organisations && w.tenants.organisations[org] == Active
    then GoesTo(w, w', a, Body) else GoesTo(w, w', a, Rejecting)
  }

  lemma EnterGateDecides(w: World, a: nat)
    requires a in w.acts && w.acts[a].key in w.jobs && !w.acts[a].data.JNull?
    ensures EnterDecides(w, EnterGate(w, a), a)
  {
    PlatformExactly(w.acts[a].key.queue, w.acts[a].data);
    hide SaysPlatform, IsPlatformAuditJob, OrganisationOf;
  }

  lemma ReadKeyDecides(w: World, a: nat)
    requires a in w.acts
    ensures KeyDecides(w, ReadKey(w, a), a)
  {
    hide OrganisationOf;
  }

  lemma InnerGateDecides(w: World, a: nat)
    requires a in w.acts && w.acts[a].key in w.jobs
    ensures InnerDecides(w, InnerGate(w, a), a)
  {
    PlatformExactly(w.acts[a].key.queue, w.acts[a].data);
    TenantExactly(w.acts[a].data);
    if IsPlatformAuditJob(w.acts[a].key.queue, w.acts[a].data) {
      PlatformIsAudit(w.acts[a].key.queue, w.acts[a].data);
    }
    hide SaysPlatform, IsPlatformAuditJob, SaysTenant, IsTenantPayload, OrganisationOf, AUDIT_VERIFY;
  }

  /**
   * What a gate does when its call returns, in every reachable state. A tenant
   * job goes on exactly when its organisation exists and is neither suspended
   * nor closed; when it has no key, or an active one; and when its payload is
   * well formed and the organisation active. Otherwise it ends, is paused for
   * thirty seconds, or is rejected. The platform audit job passes by the gates.
   */
  lemma GatesDecide(actions: seq<Action>, a: nat)
    ensures
      var w := Run(EMPTY_WORLD, actions);
      a in w.acts && !w.acts[a].stage.Remembering? ==>
        && w.acts[a].key in w.jobs
        && var w' := Next(w, Go(a, Return));
        && (w.acts[a].stage.Enter? && !w.acts[a].data.JNull? ==> EnterDecides(w, w', a))
        && (w.acts[a].stage.KeyGate? ==> KeyDecides(w, w', a))
        && (w.acts[a].stage.Processor? ==> InnerDecides(w, w', a))
  {
    hide Run, Holders, EnterGate, ReadKey, InnerGate, EnterDecides, KeyDecides, InnerDecides;
    var w := Run(EMPTY_WORLD, actions);
    RunHolds(actions);
    HolderOf(w, a);
    if a in w.acts && !w.acts[a].stage.Remembering? {
      if !w.acts[a].data.JNull? {
        EnterGateDecides(w, a);
      }
      ReadKeyDecides(w, a);
      InnerGateDecides(w, a);
    }
  }
}
