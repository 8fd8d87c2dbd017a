/**
 * The pause ledger under interleaving: a remembered ref stays with its tenant,
 * in the ledger or in a promotion's hands, until its job is promoted or gone.
 */
module WorkerLedger {
  import opened Common
  import opened TenantGates
  import opened WorkerModel
  import opened WorkerLog
  import opened WorkerPlaces

  // ---- Whose refs they are ------------------------------------------------------

  /** A process holds a tenant's ref: in its ledger, or in a promotion's hands. */
  predicate Held(w: World, owner: Owner, ref: string) {
    ref in Refs(w, owner) || (owner in w.flights && Carries(w.flights[owner], ref))
  }

  predicate Carries(flight: Flight, ref: string) {
    ref in flight.pending || flight.current == Some(ref)
  }

  lemma NoteHolds(w: World, owner: Owner, ref: string, o: Owner, r: string)
    ensures Held(Note(w, owner, ref), o, r) <==> Held(w, o, r) || (o == owner && r == ref)
  {
  }

  lemma FlightHolds(w: World, owner: Owner, flight: Flight, o: Owner, r: string)
    ensures Held(PutFlight(w, owner, flight), o, r) <==>
      if o == owner then r in Refs(w, o) || Carries(flight, r) else Held(w, o, r)
  {
  }

  predicate PausedFor(e: Event, organisationId: string, ref: string) {
    && e.Paused? && e.organisationId == organisationId
    && e.key.queue in QUEUE_NAMES && e.key.id != "" && ref == MakeRef(e.key.queue, e.key.id)
  }

  /** The ref is that of a job that was once delayed for this tenant's key. */
  ghost predicate WasPaused(log: seq<Event>, organisationId: string, ref: string) {
    exists e :: e in log && PausedFor(e, organisationId, ref)
  }

  lemma WasPausedIsSplit(log: seq<Event>, organisationId: string, ref: string)
    requires WasPaused(log, organisationId, ref)
    ensures SplitRef(ref).Some?
  {
    hide QUEUE_NAMES, SplitRef;
    var e :| e in log && PausedFor(e, organisationId, ref);
    SplitUndoesMake(e.key.queue, e.key.id);
  }

  predicate KeyFits(key: JobKey) {
    key.queue in QUEUE_NAMES && key.id != ""
  }

  ghost predicate OwnRefs(w: World, owner: Owner) {
    forall ref :: Held(w, owner, ref) ==> WasPaused(w.log, owner.1, ref)
  }

  ghost predicate ActOwns(w: World, a: nat) {
    a in w.acts ==>
      && KeyFits(w.acts[a].key)
      && (w.acts[a].stage.Remembering? ==>
            WasPaused(w.log, OrganisationOf(w.acts[a].data), MakeRef(w.acts[a].key.queue, w.acts[a].key.id)))
  }

  ghost predicate Owned(w: World) {
    && (forall key :: key in w.jobs ==> KeyFits(key))
    && (forall a :: ActOwns(w, a))
    && (forall owner :: OwnRefs(w, owner))
  }

  lemma PausedStays(log: seq<Event>, es: seq<Event>, organisationId: string, ref: string)
    requires WasPaused(log, organisationId, ref)
    ensures WasPaused(log + es, organisationId, ref)
  {
    hide PausedFor;
    var e :| e in log && PausedFor(e, organisationId, ref);
    assert e in log + es;
  }

  /** The step took no new refs, jobs or activations. */
  ghost predicate TakesNothing(w: World, w': World) {
    && w.log <= w'.log
    && w'.jobs.Keys <= w.jobs.Keys
    && (forall a :: a in w'.acts ==> a in w.acts && w'.acts[a] == w.acts[a])
    && (forall owner, ref :: Held(w', owner, ref) ==> Held(w, owner, ref))
  }

  lemma NothingKeepsOwned(w: World, w': World)
    requires Owned(w) && TakesNothing(w, w')
    ensures Owned(w')
  {
    hide KeyFits, Held, OrganisationOf, MakeRef, WasPaused;
    forall a
      ensures ActOwns(w', a)
    {
      assert ActOwns(w, a);
      if a in w'.acts && w'.acts[a].stage.Remembering? {
        LongerLog(w.log, w'.log, OrganisationOf(w.acts[a].data), MakeRef(w.acts[a].key.queue, w.acts[a].key.id));
      }
    }
    forall owner
      ensures OwnRefs(w', owner)
    {
      assert OwnRefs(w, owner);
      forall ref | Held(w', owner, ref)
        ensures WasPaused(w'.log, owner.1, ref)
      {
        LongerLog(w.log, w'.log, owner.1, ref);
      }
    }
  }

  lemma LongerLog(log: seq<Event>, log': seq<Event>, organisationId: string, ref: string)
    requires log <= log' && WasPaused(log, organisationId, ref)
    ensures WasPaused(log', organisationId, ref)
  {
    assert log' == log + log'[|log|..];
    PausedStays(log, log'[|log|..], organisationId, ref);
  }

  lemma LookUpOneHolds(w: World, owner: Owner, rest: Flight, ref: string, up: bool, o: Owner, r: string)
    ensures Held(LookUpOne(w, owner, rest, ref, up), o, r) ==>
      if o == owner then r in Refs(w, o) || Carries(rest, r) || r == ref else Held(w, o, r)
  {
    hide SplitRef, KeyOf, Held, Note, PutFlight, Refs;
    var put := PutFlight(w, owner, rest);
    FlightHolds(w, owner, rest, o, r);
    FlightHolds(w, owner, rest.(current := Some(ref)), o, r);
    NoteHolds(put, owner, ref, o, r);
    SameHolds(put, Logged(put, Discarded(owner, ref)), o, r);
  }

  lemma LookUpHolds(w: World, owner: Owner, ref: string, up: bool, o: Owner, r: string)
    ensures Held(DoLookUp(w, owner, ref, up), o, r) ==> Held(w, o, r)
  {
    hide LookUpOne, Refs;
    if CanLookUp(w, owner, ref) {
      var rest := w.flights[owner].(pending := w.flights[owner].pending - {ref});
      LookUpOneHolds(w, owner, rest, ref, up, o, r);
    }
  }

  lemma LookUpTakesNothing(w: World, owner: Owner, ref: string, up: bool)
    ensures TakesNothing(w, DoLookUp(w, owner, ref, up))
  {
    hide DoLookUp, Held;
    LookUpFrame(w, owner, ref, up);
    LookUpLogs(w, owner, ref, up);
    forall o, r
      ensures Held(DoLookUp(w, owner, ref, up), o, r) ==> Held(w, o, r)
    {
      LookUpHolds(w, owner, ref, up, o, r);
    }
  }

  /** What a promotion leaves in a process's hands, whether it notes the ref again or not. */
  lemma PutBackHolds(w: World, w': World, owner: Owner, flight: Flight, ref: string, o: Owner, r: string)
    requires w'.ledger == w.ledger && w'.flights == w.flights
    ensures Held(PutFlight(w', owner, flight), o, r) <==>
      if o == owner then r in Refs(w, o) || Carries(flight, r) else Held(w, o, r)
    ensures Held(Note(PutFlight(w', owner, flight), owner, ref), o, r) <==>
      if o == owner then r in Refs(w, o) || Carries(flight, r) || r == ref else Held(w, o, r)
  {
    FlightHolds(w', owner, flight, o, r);
    NoteHolds(PutFlight(w', owner, flight), owner, ref, o, r);
    hide Note, PutFlight;
  }

  lemma PromoteOneHolds(w: World, owner: Owner, rest: Flight, ref: string, reply: Reply, o: Owner, r: string)
    ensures Held(PromoteOne(w, owner, rest, ref, reply), o, r) ==>
      if o == owner then r in Refs(w, o) || Carries(rest, r) || r == ref else Held(w, o, r)
  {
    hide SplitRef, KeyOf, Held, Note, PutFlight, Refs;
    var counted := rest.(promoted := rest.promoted + 1);
    var put := if SplitRef(ref).Some? && KeyOf(ref) in w.jobs then PutJob(w, KeyOf(ref), Waiting) else w;
    PutBackHolds(w, w, owner, rest, ref, o, r);
    PutBackHolds(w, put, owner, rest, ref, o, r);
    PutBackHolds(w, put, owner, counted, ref, o, r);
    var again := Note(PutFlight(put, owner, rest), owner, ref);
    SameHolds(again, Logged(again, PromotedUnseen(owner, ref)), o, r);
    SameHolds(PutFlight(put, owner, counted), Logged(PutFlight(put, owner, counted), Promoted(owner, ref)), o, r);
  }

  lemma PromoteOneFrame(w: World, owner: Owner, rest: Flight, ref: string, reply: Reply)
    ensures var w' := PromoteOne(w, owner, rest, ref, reply);
      w'.jobs.Keys == w.jobs.Keys && w'.acts == w.acts && w.log <= w'.log
  {
    hide SplitRef, Refs;
  }

  lemma PromoteFrame(w: World, owner: Owner, reply: Reply)
    ensures var w' := DoPromote(w, owner, reply);
      w'.jobs.Keys == w.jobs.Keys && w'.acts == w.acts && w.log <= w'.log
  {
    hide PromoteOne;
    if owner in w.flights && w.flights[owner].current.Some? {
      PromoteOneFrame(w, owner, w.flights[owner].(current := None), w.flights[owner].current.value, reply);
    }
  }

  lemma PromoteTakesNothing(w: World, owner: Owner, reply: Reply)
    ensures TakesNothing(w, DoPromote(w, owner, reply))
  {
    hide PromoteOne, Refs;
    PromoteFrame(w, owner, reply);
    forall o, r
      ensures Held(DoPromote(w, owner, reply), o, r) ==> Held(w, o, r)
    {
      if owner in w.flights && w.flights[owner].current.Some? {
        PromoteOneHolds(w, owner, w.flights[owner].(current := None), w.flights[owner].current.value, reply, o, r);
      }
    }
  }

  lemma TakeHolds(w: World, owner: Owner, o: Owner, r: string)
    ensures Held(DoTake(w, owner), o, r) ==> Held(w, o, r)
    ensures Held(DoFinish(w, owner), o, r) ==> Held(w, o, r)
  {
  }

  lemma TakeFrame(w: World, owner: Owner)
    ensures SameButBooks(w, DoTake(w, owner)) && w.log <= DoTake(w, owner).log
    ensures SameButBooks(w, DoFinish(w, owner)) && w.log <= DoFinish(w, owner).log
  {
    hide Refs;
  }

  lemma TakeTakesNothing(w: World, owner: Owner)
    ensures TakesNothing(w, DoTake(w, owner))
    ensures TakesNothing(w, DoFinish(w, owner))
  {
    hide DoTake, DoFinish, Held;
    TakeFrame(w, owner);
    forall o, r
      ensures Held(DoTake(w, owner), o, r) ==> Held(w, o, r)
      ensures Held(DoFinish(w, owner), o, r) ==> Held(w, o, r)
    {
      TakeHolds(w, owner, o, r);
    }
  }

  lemma CrashTakesNothing(w: World, proc: nat)
    ensures TakesNothing(w, DoCrash(w, proc))
  {
    hide RunsIn;
  }

  // ---- Every action keeps whose they are ------------------------------------------

  lemma GoKeepsHeld(w: World, a: nat, outcome: Outcome, owner: Owner, ref: string)
    requires Holders(w)
    ensures Held(DoGo(w, a, outcome), owner, ref) <==>
      || Held(w, owner, ref)
      || (a in w.acts && w.acts[a].stage.Remembering?
          && owner == (w.acts[a].proc, OrganisationOf(w.acts[a].data))
          && ref == MakeRef(w.acts[a].key.queue, w.acts[a].key.id))
  {
    hide OrganisationOf, MakeRef, Proceed, OnError, Held, Holders;
    HolderOf(w, a);
    if a in w.acts {
      if w.acts[a].stage.Remembering? {
        RememberHolds(w, a, owner, ref);
      } else {
        GoMoves(w, a, outcome);
        SameHolds(w, DoGo(w, a, outcome), owner, ref);
      }
    }
  }

  lemma RememberHolds(w: World, a: nat, owner: Owner, ref: string)
    requires a in w.acts
    ensures Held(RememberPausedJob(w, a), owner, ref) <==>
      || Held(w, owner, ref)
      || (owner == (w.acts[a].proc, OrganisationOf(w.acts[a].data))
          && ref == MakeRef(w.acts[a].key.queue, w.acts[a].key.id))
  {
    hide OrganisationOf, MakeRef;
  }

  lemma SameHolds(w: World, w': World, owner: Owner, ref: string)
    requires w'.ledger == w.ledger && w'.flights == w.flights
    ensures Held(w', owner, ref) <==> Held(w, owner, ref)
  {
  }

  lemma GoKeepsOwned(w: World, a: nat, outcome: Outcome)
    requires Owned(w) && Holders(w)
    ensures Owned(DoGo(w, a, outcome))
  {
    hide DoGo, Holders, Held, KeyFits, WasPaused, OrganisationOf, MakeRef;
    var w' := DoGo(w, a, outcome);
    GoLogs(w, a, outcome);
    HolderOf(w, a);
    if a in w.acts {
      GoMoves(w, a, outcome);
      assert ActOwns(w, a);
      if a in w'.acts && w'.acts[a].stage.Remembering? {
        GoRemembers(w, a, outcome);
      }
    } else {
      UnknownGo(w, a, outcome);
    }
    forall b
      ensures ActOwns(w', b)
    {
      assert ActOwns(w, b);
      if b in w.acts && w.acts[b].stage.Remembering? {
        LongerLog(w.log, w'.log, OrganisationOf(w.acts[b].data), MakeRef(w.acts[b].key.queue, w.acts[b].key.id));
      }
    }
    forall owner
      ensures OwnRefs(w', owner)
    {
      assert OwnRefs(w, owner);
      forall ref | Held(w', owner, ref)
        ensures WasPaused(w'.log, owner.1, ref)
      {
        GoKeepsHeld(w, a, outcome, owner, ref);
        assert WasPaused(w.log, owner.1, ref);
        LongerLog(w.log, w'.log, owner.1, ref);
      }
    }
  }

  /** An activation is about to note a ref only when it has just delayed its job for that tenant. */
  lemma GoRemembers(w: World, a: nat, outcome: Outcome)
    requires a in w.acts && ActHolds(w, a) && KeyFits(w.acts[a].key)
    requires var w' := DoGo(w, a, outcome); a in w'.acts && w'.acts[a].stage.Remembering?
    ensures WasPaused(DoGo(w, a, outcome).log, OrganisationOf(w.acts[a].data),
                      MakeRef(w.acts[a].key.queue, w.acts[a].key.id))
  {
    hide OrganisationOf, MakeRef, QUEUE_NAMES, Proceed, OnError;
    var act := w.acts[a];
    var w' := DoGo(w, a, outcome);
    GoMoves(w, a, outcome);
    if outcome.Throw? {
      ErrorStage(w, a, outcome.err, outcome.retryDelay);
    }
    ProceedLogs(w, a);
    var paused := Paused(a, act.key, OrganisationOf(act.data), act.stage.wake, w.now);
    assert PausedFor(paused, OrganisationOf(act.data), MakeRef(act.key.queue, act.key.id));
    assert w'.log[|w'.log| - 1] == paused;
  }

  lemma AddKeepsOwned(w: World, key: JobKey, name: string, data: Json, attempts: Option<int>, delay: nat)
    requires Owned(w)
    ensures Owned(DoAdd(w, key, name, data, attempts, delay))
  {
    hide QUEUE_NAMES, WasPaused, OrganisationOf, MakeRef, Held;
    var w' := DoAdd(w, key, name, data, attempts, delay);
    forall a
      ensures ActOwns(w', a)
    {
      assert ActOwns(w, a);
      if a in w'.acts && w'.acts[a].stage.Remembering? {
        LongerLog(w.log, w'.log, OrganisationOf(w.acts[a].data), MakeRef(w.acts[a].key.queue, w.acts[a].key.id));
      }
    }
    forall owner
      ensures OwnRefs(w', owner)
    {
      assert OwnRefs(w, owner);
      forall ref | Held(w', owner, ref)
        ensures WasPaused(w'.log, owner.1, ref)
      {
        SameHolds(w, w', owner, ref);
        LongerLog(w.log, w'.log, owner.1, ref);
      }
    }
  }

  lemma PickKeepsOwned(w: World, key: JobKey, proc: nat)
    requires Owned(w)
    ensures Owned(DoPick(w, key, proc))
  {
    hide KeyFits, WasPaused, OrganisationOf, MakeRef, Held;
    var w' := DoPick(w, key, proc);
    forall a
      ensures ActOwns(w', a)
    {
      assert ActOwns(w, a);
    }
    forall owner
      ensures OwnRefs(w', owner)
    {
      assert OwnRefs(w, owner);
      forall ref | Held(w', owner, ref)
        ensures WasPaused(w'.log, owner.1, ref)
      {
        SameHolds(w, w', owner, ref);
      }
    }
  }

  lemma StatusTakesNothing(w: World, action: Action)
    requires action.SetOrganisation? || action.SetKey? || action.Tick? || action.RemoveJob? || action.Wake?
      || action.WriteLetter?
    ensures TakesNothing(w, Next(w, action))
  {
    hide Held;
    forall owner, ref
      ensures Held(Next(w, action), owner, ref) ==> Held(w, owner, ref)
    {
      SameHolds(w, Next(w, action), owner, ref);
    }
  }

  lemma NextKeepsOwned(w: World, action: Action)
    requires Owned(w) && Holders(w)
    ensures Owned(Next(w, action))
  {
    hide Owned, Holders, TakesNothing, DoAdd, DoPick, DoGo, DoCrash, DoTake, DoLookUp, DoPromote, DoFinish;
    match action
    case AddJob(key, name, data, attempts, delay) => AddKeepsOwned(w, key, name, data, attempts, delay);
    case Pick(key, proc) => PickKeepsOwned(w, key, proc);
    case Go(a, outcome) => GoKeepsOwned(w, a, outcome);
    case Crash(proc) =>
      CrashTakesNothing(w, proc);
      NothingKeepsOwned(w, DoCrash(w, proc));
    case Take(owner) =>
      TakeTakesNothing(w, owner);
      NothingKeepsOwned(w, DoTake(w, owner));
    case LookUp(owner, ref, up) =>
      LookUpTakesNothing(w, owner, ref, up);
      NothingKeepsOwned(w, DoLookUp(w, owner, ref, up));
    case Promote(owner, reply) =>
      PromoteTakesNothing(w, owner, reply);
      NothingKeepsOwned(w, DoPromote(w, owner, reply));
    case Finish(owner) =>
      TakeTakesNothing(w, owner);
      NothingKeepsOwned(w, DoFinish(w, owner));
    case _ =>
      StatusTakesNothing(w, action);
      NothingKeepsOwned(w, Next(w, action));
  }

  lemma EmptyOwned()
    ensures Owned(EMPTY_WORLD)
  {
  }

  lemma {:induction false} RunOwned(actions: seq<Action>)
    ensures Owned(Run(EMPTY_WORLD, actions))
  {
    hide Next, Owned, Holders;
    EmptyOwned();
    if actions != [] {
      RunOwned(actions[..|actions| - 1]);
      RunHolds(actions[..|actions| - 1]);
      NextKeepsOwned(Run(EMPTY_WORLD, actions[..|actions| - 1]), actions[|actions| - 1]);
    }
  }

  /** A pause, for this tenant, of the job `splitRef` reads from the ref. */
  predicate IsPauseOf(e: Event, organisationId: string, ref: string) {
    e.Paused? && e.organisationId == organisationId && SplitRef(ref) == Some((e.key.queue, e.key.id))
  }

  /**
   * In every reachable state, a ref held for a tenant is that of a job which
   * was delayed for that tenant's key, and `splitRef` accepts it: none is held
   * for another tenant, and none is dropped as malformed.
   */
  lemma HeldRefsAreTheTenants(actions: seq<Action>, owner: Owner, ref: string)
    requires Held(Run(EMPTY_WORLD, actions), owner, ref)
    ensures exists e :: e in Run(EMPTY_WORLD, actions).log && IsPauseOf(e, owner.1, ref)
  {
    hide Run, Held, QUEUE_NAMES, SplitRef, MakeRef;
    RunOwned(actions);
    var w := Run(EMPTY_WORLD, actions);
    assert OwnRefs(w, owner);
    var e :| e in w.log && PausedFor(e, owner.1, ref);
    SplitUndoesMake(e.key.queue, e.key.id);
    assert IsPauseOf(e, owner.1, ref);
  }

  // ---- Conservation -----------------------------------------------------------

  /** The only ways a process stops holding a ref: promoted, its job gone, or the process killed. */
  predicate Settles(e: Event, owner: Owner, ref: string) {
    e == Promoted(owner, ref) || e == Discarded(owner, ref) || e == Crashed(owner.0)
  }

  lemma LookUpOneKeeps(w: World, owner: Owner, rest: Flight, ref: string, up: bool, o: Owner, r: string)
    requires if o == owner then r in Refs(w, o) || Carries(rest, r) || r == ref else Held(w, o, r)
    requires rest.current.None? && SplitRef(ref).Some?
    ensures var w' := LookUpOne(w, owner, rest, ref, up);
      Held(w', o, r) || (o == owner && r == ref && w'.log == w.log + [Discarded(o, r)])
  {
    hide SplitRef, KeyOf, Held, Note, Refs;
    var put := PutFlight(w, owner, rest);
    FlightHolds(w, owner, rest, o, r);
    FlightHolds(w, owner, rest.(current := Some(ref)), o, r);
    NoteHolds(put, owner, ref, o, r);
    SameHolds(put, Logged(put, Discarded(owner, ref)), o, r);
  }

  lemma LookUpKeeps(w: World, owner: Owner, ref: string, up: bool, o: Owner, r: string)
    requires Held(w, o, r) && SplitRef(r).Some?
    ensures var w' := DoLookUp(w, owner, ref, up);
      Held(w', o, r) || w'.log == w.log + [Discarded(o, r)]
  {
    hide SplitRef, LookUpOne, Refs;
    if CanLookUp(w, owner, ref) {
      var rest := w.flights[owner].(pending := w.flights[owner].pending - {ref});
      if SplitRef(ref).Some? {
        LookUpOneKeeps(w, owner, rest, ref, up, o, r);
      } else {
        MalformedKeeps(w, owner, rest, ref, up, o, r);
      }
    }
  }

  lemma MalformedKeeps(w: World, owner: Owner, rest: Flight, ref: string, up: bool, o: Owner, r: string)
    requires if o == owner then r in Refs(w, o) || Carries(rest, r) else Held(w, o, r)
    requires SplitRef(ref).None?
    ensures Held(LookUpOne(w, owner, rest, ref, up), o, r)
  {
    hide SplitRef, Held, Refs, PutFlight;
    FlightHolds(w, owner, rest, o, r);
  }

  lemma PromoteOneKeeps(w: World, owner: Owner, rest: Flight, ref: string, reply: Reply, o: Owner, r: string)
    requires if o == owner then r in Refs(w, o) || Carries(rest, r) || r == ref else Held(w, o, r)
    ensures var w' := PromoteOne(w, owner, rest, ref, reply);
      Held(w', o, r) || (o == owner && r == ref && w'.log == w.log + [Promoted(o, r)])
  {
    hide SplitRef, KeyOf, Held, Note, Refs;
    var counted := rest.(promoted := rest.promoted + 1);
    var put := if SplitRef(ref).Some? && KeyOf(ref) in w.jobs then PutJob(w, KeyOf(ref), Waiting) else w;
    PutBackHolds(w, w, owner, rest, ref, o, r);
    PutBackHolds(w, put, owner, rest, ref, o, r);
    PutBackHolds(w, put, owner, counted, ref, o, r);
    var again := Note(PutFlight(put, owner, rest), owner, ref);
    SameHolds(again, Logged(again, PromotedUnseen(owner, ref)), o, r);
    SameHolds(PutFlight(put, owner, counted), Logged(PutFlight(put, owner, counted), Promoted(owner, ref)), o, r);
  }

  lemma PromoteKeeps(w: World, owner: Owner, reply: Reply, o: Owner, r: string)
    requires Held(w, o, r)
    ensures var w' := DoPromote(w, owner, reply);
      Held(w', o, r) || w'.log == w.log + [Promoted(o, r)]
  {
    hide PromoteOne, Refs;
    if owner in w.flights && w.flights[owner].current.Some? {
      PromoteOneKeeps(w, owner, w.flights[owner].(current := None), w.flights[owner].current.value, reply, o, r);
    }
  }

  lemma TakeKeeps(w: World, owner: Owner, o: Owner, r: string)
    requires Held(w, o, r)
    ensures Held(DoTake(w, owner), o, r)
    ensures Held(DoFinish(w, owner), o, r)
  {
  }

  lemma NextKeepsRef(w: World, action: Action, owner: Owner, ref: string)
    requires Holders(w) && Held(w, owner, ref) && SplitRef(ref).Some?
    ensures Held(Next(w, action), owner, ref)
      || exists e :: Next(w, action).log == w.log + [e] && Settles(e, owner, ref)
  {
    hide Holders, Held, DoAdd, DoRemove, DoWake, DoPick, DoGo, DoTake, DoLookUp, DoPromote, DoFinish, SplitRef, RunsIn;
    match action
    case Go(a, outcome) => GoKeepsHeld(w, a, outcome, owner, ref);
    case Take(o) => TakeKeeps(w, o, owner, ref);
    case LookUp(o, r, up) =>
      LookUpKeeps(w, o, r, up, owner, ref);
      assert Settles(Discarded(owner, ref), owner, ref);
    case Promote(o, reply) =>
      PromoteKeeps(w, o, reply, owner, ref);
      assert Settles(Promoted(owner, ref), owner, ref);
    case Finish(o) => TakeKeeps(w, o, owner, ref);
    case Crash(proc) =>
      if proc != owner.0 {
        CrashKeeps(w, proc, owner, ref);
      }
      assert Next(w, action).log == w.log + [Crashed(proc)];
    case _ => BooksKept(w, action, owner, ref);
  }

  lemma BooksKept(w: World, action: Action, owner: Owner, ref: string)
    requires action.SetOrganisation? || action.SetKey? || action.Tick? || action.RemoveJob? || action.Wake?
      || action.AddJob? || action.Pick? || action.WriteLetter?
    ensures Held(Next(w, action), owner, ref) <==> Held(w, owner, ref)
  {
    hide Held, QUEUE_NAMES;
    SameHolds(w, Next(w, action), owner, ref);
  }

  lemma CrashKeeps(w: World, proc: nat, owner: Owner, ref: string)
    requires Held(w, owner, ref) && proc != owner.0
    ensures Held(DoCrash(w, proc), owner, ref)
  {
    hide RunsIn;
  }

  /** The event, in the part of the log after `from`, that settled the ref. */
  ghost predicate SettledSince(log: seq<Event>, from: nat, owner: Owner, ref: string) {
    exists i :: from <= i < |log| && Settles(log[i], owner, ref)
  }

  lemma {:induction false} LogOnlyGrows(w: World, actions: seq<Action>)
    ensures w.log <= Run(w, actions).log
  {
    if actions != [] {
      hide Next;
      var before := Run(w, actions[..|actions| - 1]);
      var action := actions[|actions| - 1];
      LogOnlyGrows(w, actions[..|actions| - 1]);
      NextLogGrows(before, action);
    }
  }

  /**
   * Conservation over every run: a ref a process holds for a tenant at any
   * moment is still held for that tenant by that process at any later moment,
   * unless in between its job was promoted for it, was found gone, or the
   * process was killed. A failed promotion never loses it.
   */
  lemma {:induction false} HeldUntilSettled(before: seq<Action>, after: seq<Action>, owner: Owner, ref: string)
    requires Held(Run(EMPTY_WORLD, before), owner, ref)
    ensures
      var earlier := Run(EMPTY_WORLD, before);
      var later := Run(EMPTY_WORLD, before + after);
      Held(later, owner, ref) || SettledSince(later.log, |earlier.log|, owner, ref)
  {
    hide Next, Held, Settles;
    if after == [] {
      assert before + after == before;
    } else {
      var front := after[..|after| - 1];
      var action := after[|after| - 1];
      var all := before + after;
      assert all[..|all| - 1] == before + front;
      HeldUntilSettled(before, front, owner, ref);
      var w := Run(EMPTY_WORLD, before + front);
      NextLogGrows(w, action);
      if Held(w, owner, ref) {
        LogOnlyGrows(Run(EMPTY_WORLD, before), front);
        RunConcat(EMPTY_WORLD, before, front);
        HeldIsKept(before + front, action, owner, ref);
      } else {
        var i :| |Run(EMPTY_WORLD, before).log| <= i < |w.log| && Settles(w.log[i], owner, ref);
        assert Next(w, action).log[i] == w.log[i];
      }
    }
  }

  lemma HeldIsKept(actions: seq<Action>, action: Action, owner: Owner, ref: string)
    requires Held(Run(EMPTY_WORLD, actions), owner, ref)
    ensures var w := Run(EMPTY_WORLD, actions);
      Held(Next(w, action), owner, ref) || SettledSince(Next(w, action).log, |w.log|, owner, ref)
  {
    hide Run, Next, Held, Settles, SplitRef;
    var w := Run(EMPTY_WORLD, actions);
    RunOwned(actions);
    RunHolds(actions);
    assert OwnRefs(w, owner);
    WasPausedIsSplit(w.log, owner.1, ref);
    NextKeepsRef(w, action, owner, ref);
    if !Held(Next(w, action), owner, ref) {
      var e :| Next(w, action).log == w.log + [e] && Settles(e, owner, ref);
      assert Next(w, action).log[|w.log|] == e;
    }
  }

  // ---- The count --------------------------------------------------------------

  function PromotedSince(log: seq<Event>, owner: Owner): nat {
    if log == [] then 0
    else
      var e := log[|log| - 1];
      if e == Taken(owner) then 0
      else PromotedSince(log[..|log| - 1], owner) + if e.Promoted? && e.owner == owner then 1 else 0
  }

  lemma PromotedNext(log: seq<Event>, e: Event, owner: Owner)
    ensures PromotedSince(log + [e], owner) ==
      if e == Taken(owner) then 0
      else PromotedSince(log, owner) + if e.Promoted? && e.owner == owner then 1 else 0
  {
    assert (log + [e])[..|log|] == log;
  }

  lemma {:induction false} PromotedByOthers(log: seq<Event>, es: seq<Event>, owner: Owner)
    requires forall e :: e in es ==> !e.Taken? && !e.Promoted?
    ensures PromotedSince(log + es, owner) == PromotedSince(log, owner)
  {
    if es == [] {
      assert log + es == log;
    } else {
      PromotedByOthers(log, es[..|es| - 1], owner);
      assert log + es == (log + es[..|es| - 1]) + [es[|es| - 1]];
      PromotedNext(log + es[..|es| - 1], es[|es| - 1], owner);
    }
  }

  ghost predicate Counted(w: World, owner: Owner) {
    owner in w.flights ==> w.flights[owner].promoted == PromotedSince(w.log, owner)
  }

  lemma GoKeepsCount(w: World, a: nat, outcome: Outcome, owner: Owner)
    requires Holders(w) && Counted(w, owner)
    ensures Counted(DoGo(w, a, outcome), owner)
  {
    hide Holders, DoGo, PromotedSince;
    HolderOf(w, a);
    GoLogs(w, a, outcome);
    GoWritesNone(w, a, outcome);
    PromotedByOthers(w.log, GoEvents(w, a, outcome), owner);
    if a in w.acts {
      GoKeepsFlights(w, a, outcome);
    } else {
      UnknownGo(w, a, outcome);
    }
  }

  lemma GoKeepsFlights(w: World, a: nat, outcome: Outcome)
    requires a in w.acts && ActHolds(w, a)
    ensures DoGo(w, a, outcome).flights == w.flights
  {
    hide Proceed, OnError, OrganisationOf, MakeRef, Refs;
    GoMoves(w, a, outcome);
  }

  lemma GoWritesNone(w: World, a: nat, outcome: Outcome)
    ensures forall e :: e in GoEvents(w, a, outcome) ==> !e.Taken? && !e.Promoted?
  {
    hide IsPlatformAuditJob, AcceptsWork, OrganisationOf, InnerActive, KeyStatusOf, MakeRef, AUDIT_VERIFY, Excused,
         DeadLetters, SiteOf;
  }

  lemma PromoteKeepsCount(w: World, o: Owner, reply: Reply, owner: Owner)
    requires Counted(w, owner)
    ensures Counted(DoPromote(w, o, reply), owner)
  {
    hide SplitRef, KeyOf, Refs, PromotedSince;
    if o in w.flights && w.flights[o].current.Some? {
      PromotedNext(w.log, Promoted(o, w.flights[o].current.value), owner);
      PromotedNext(w.log, PromotedUnseen(o, w.flights[o].current.value), owner);
    }
  }

  lemma LookUpOneFlight(w: World, o: Owner, rest: Flight, ref: string, up: bool) returns (flight: Flight)
    ensures LookUpOne(w, o, rest, ref, up).flights == w.flights[o := flight] && flight.promoted == rest.promoted
  {
    hide SplitRef, KeyOf, Refs;
    flight := if SplitRef(ref).Some? && up && KeyOf(ref) in w.jobs then rest.(current := Some(ref)) else rest;
  }

  lemma LookUpOneLogs(w: World, o: Owner, rest: Flight, ref: string, up: bool)
    ensures var log := LookUpOne(w, o, rest, ref, up).log; log == w.log || log == w.log + [Discarded(o, ref)]
  {
    hide SplitRef, KeyOf, Refs;
  }

  lemma LookUpKeepsCount(w: World, o: Owner, ref: string, up: bool, owner: Owner)
    requires Counted(w, owner)
    ensures Counted(DoLookUp(w, o, ref, up), owner)
  {
    hide LookUpOne, PromotedSince;
    PromotedNext(w.log, Discarded(o, ref), owner);
    if CanLookUp(w, o, ref) {
      var rest := w.flights[o].(pending := w.flights[o].pending - {ref});
      var flight := LookUpOneFlight(w, o, rest, ref, up);
      LookUpOneLogs(w, o, rest, ref, up);
    }
  }

  lemma OthersKeepCount(w: World, action: Action, owner: Owner)
    requires !action.Go? && !action.LookUp? && !action.Promote? && Counted(w, owner)
    ensures Counted(Next(w, action), owner)
  {
    hide PromotedSince, QUEUE_NAMES, RunsIn, Refs;
    match action
    case AddJob(key, _, _, _, _) => PromotedNext(w.log, Added(key), owner);
    case Take(o) => PromotedNext(w.log, Taken(o), owner);
    case Crash(proc) => PromotedNext(w.log, Crashed(proc), owner);
    case WriteLetter(a, _) =>
      if a in w.letters {
        PromotedNext(w.log, DeadLettered(a, w.letters[a]), owner);
        PromotedNext(w.log, LetterRefused(a, w.letters[a]), owner);
      }
    case _ =>
  }

  /**
   * At every moment of every run, the number a promotion is about to return is
   * the number of jobs it has seen move from delayed to waiting since it took
   * its refs; a move that reported an error is not among them.
   */
  lemma {:induction false} PromotedIsCounted(actions: seq<Action>, owner: Owner)
    ensures
      var w := Run(EMPTY_WORLD, actions);
      owner in w.flights ==> w.flights[owner].promoted == PromotedSince(w.log, owner)
  {
    hide Next, Holders, PromotedSince;
    if actions != [] {
      var before := actions[..|actions| - 1];
      var w := Run(EMPTY_WORLD, before);
      PromotedIsCounted(before, owner);
      RunHolds(before);
      NextKeepsCount(w, actions[|actions| - 1], owner);
    }
  }

  lemma NextKeepsCount(w: World, action: Action, owner: Owner)
    requires Holders(w) && Counted(w, owner)
    ensures Counted(Next(w, action), owner)
  {
    hide Counted, Holders, DoGo, DoLookUp, DoPromote;
    match action
    case Go(a, outcome) => GoKeepsCount(w, a, outcome, owner);
    case LookUp(o, ref, up) => LookUpKeepsCount(w, o, ref, up, owner);
    case Promote(o, reply) => PromoteKeepsCount(w, o, reply, owner);
    case _ => OthersKeepCount(w, action, owner);
  }
}
