/**
 * Conservation of notes: a process promotes a ref of a tenant, or finds its job
 * gone, at most as often as it has noted that ref.
 */
module WorkerBalance {
  import opened Common
  import opened TenantGates
  import opened WorkerModel
  import opened WorkerLog
  import opened WorkerPlaces
  import opened WorkerLedger

  function Change(e: Event, owner: Owner, ref: string): int {
    if e == Noted(owner, ref) then 1
    else if e == Promoted(owner, ref) || e == Discarded(owner, ref) then -1
    else 0
  }

  /** How often the ref has been noted, less how often it has been promoted or found gone. */
  function Balance(log: seq<Event>, owner: Owner, ref: string): int {
    if log == [] then 0
    else Balance(log[..|log| - 1], owner, ref) + Change(log[|log| - 1], owner, ref)
  }

  lemma BalanceNext(log: seq<Event>, e: Event, owner: Owner, ref: string)
    ensures Balance(log + [e], owner, ref) == Balance(log, owner, ref) + Change(e, owner, ref)
  {
    hide Change;
    assert (log + [e])[..|log|] == log;
  }

  lemma {:induction false} BalanceOfOthers(log: seq<Event>, es: seq<Event>, owner: Owner, ref: string)
    requires forall e :: e in es ==> Change(e, owner, ref) == 0
    ensures Balance(log + es, owner, ref) == Balance(log, owner, ref)
  {
    hide Change;
    if es == [] {
      assert log + es == log;
    } else {
      BalanceOfOthers(log, es[..|es| - 1], owner, ref);
      assert log + es == (log + es[..|es| - 1]) + [es[|es| - 1]];
      assert es[|es| - 1] in es;
      BalanceNext(log + es[..|es| - 1], es[|es| - 1], owner, ref);
    }
  }

  function Ledgered(w: World, owner: Owner, ref: string): nat {
    if ref in Refs(w, owner) then 1 else 0
  }

  function Carried(flight: Flight, ref: string): nat {
    if Carries(flight, ref) then 1 else 0
  }

  function InFlight(w: World, owner: Owner, ref: string): nat {
    if owner in w.flights then Carried(w.flights[owner], ref) else 0
  }

  /** The places that hold the ref: the ledger, and a promotion's hands. */
  function Copies(w: World, owner: Owner, ref: string): nat {
    Ledgered(w, owner, ref) + InFlight(w, owner, ref)
  }

  predicate SingleFlight(flight: Flight) {
    flight.current.Some? ==> flight.current.value !in flight.pending
  }

  /** The ref a promotion is at is not still to come. */
  predicate IsSingle(w: World, owner: Owner) {
    owner in w.flights ==> SingleFlight(w.flights[owner])
  }

  ghost predicate Balanced(w: World, owner: Owner, ref: string) {
    IsSingle(w, owner) && Copies(w, owner, ref) <= Balance(w.log, owner, ref)
  }

  lemma SameBalance(w: World, w': World, owner: Owner, ref: string)
    requires Balanced(w, owner, ref) && w'.ledger == w.ledger && w'.flights == w.flights
    requires Balance(w'.log, owner, ref) == Balance(w.log, owner, ref)
    ensures Balanced(w', owner, ref)
  {
    hide Balance;
  }

  lemma RememberBalances(w: World, a: nat, owner: Owner, ref: string)
    requires a in w.acts && Balanced(w, owner, ref)
    ensures Balanced(RememberPausedJob(w, a), owner, ref)
  {
    hide Balance, OrganisationOf, MakeRef;
    var act := w.acts[a];
    BalanceNext(w.log, Noted((act.proc, OrganisationOf(act.data)), MakeRef(act.key.queue, act.key.id)), owner, ref);
  }

  lemma CallsChangeNothing(w: World, a: nat, outcome: Outcome, owner: Owner, ref: string)
    requires a in w.acts && !w.acts[a].stage.Remembering?
    ensures forall e :: e in GoEvents(w, a, outcome) ==> Change(e, owner, ref) == 0
  {
    hide IsPlatformAuditJob, OrganisationOf, InnerActive, KeyStatusOf, MakeRef, AUDIT_VERIFY, Excused, DeadLetters,
         SiteOf;
  }

  lemma GoBalances(w: World, a: nat, outcome: Outcome, owner: Owner, ref: string)
    requires Holders(w) && Balanced(w, owner, ref)
    ensures Balanced(DoGo(w, a, outcome), owner, ref)
  {
    hide Holders, Balanced, Balance, GoEvents, Change, Proceed, OnError, LoseMove, RememberPausedJob;
    HolderOf(w, a);
    if a in w.acts {
      if w.acts[a].stage.Remembering? {
        RememberBalances(w, a, owner, ref);
      } else {
        GoLogs(w, a, outcome);
        CallsChangeNothing(w, a, outcome, owner, ref);
        BalanceOfOthers(w.log, GoEvents(w, a, outcome), owner, ref);
        GoMoves(w, a, outcome);
        SameBalance(w, DoGo(w, a, outcome), owner, ref);
      }
    }
  }

  lemma TakeBalances(w: World, o: Owner, owner: Owner, ref: string)
    requires Balanced(w, owner, ref)
    ensures Balanced(DoTake(w, o), owner, ref)
    ensures Balanced(DoFinish(w, o), owner, ref)
  {
    hide Balance;
    BalanceNext(w.log, Taken(o), owner, ref);
  }

  lemma FlightCopies(w: World, o: Owner, flight: Flight, owner: Owner, ref: string)
    ensures Copies(PutFlight(w, o, flight), owner, ref) ==
      Ledgered(w, owner, ref) + if owner == o then Carried(flight, ref) else InFlight(w, owner, ref)
    ensures IsSingle(PutFlight(w, o, flight), owner) <==>
      if owner == o then SingleFlight(flight) else IsSingle(w, owner)
  {
  }

  lemma NoteCopies(w: World, o: Owner, noted: string, owner: Owner, ref: string)
    ensures Copies(Note(w, o, noted), owner, ref) ==
      if (o, noted) == (owner, ref) then 1 + InFlight(w, owner, ref) else Copies(w, owner, ref)
    ensures IsSingle(Note(w, o, noted), owner) <==> IsSingle(w, owner)
  {
  }

  lemma SameCopies(w: World, w': World, owner: Owner, ref: string)
    requires w'.ledger == w.ledger && w'.flights == w.flights
    ensures Copies(w', owner, ref) == Copies(w, owner, ref) && (IsSingle(w', owner) <==> IsSingle(w, owner))
  {
  }

  lemma FlightOf(w: World, owner: Owner, ref: string)
    requires owner in w.flights
    ensures InFlight(w, owner, ref) == Carried(w.flights[owner], ref)
    ensures IsSingle(w, owner) <==> SingleFlight(w.flights[owner])
  {
  }

  lemma FlightInPut(w: World, o: Owner, flight: Flight, owner: Owner, ref: string)
    ensures InFlight(PutFlight(w, o, flight), owner, ref) ==
      if owner == o then Carried(flight, ref) else InFlight(w, owner, ref)
  {
  }

  /** A ref that leaves a flight and is noted again is held in one place at most. */
  lemma NotedAgain(w: World, o: Owner, rest: Flight, again: string, owner: Owner, ref: string)
    ensures
      var w' := Note(PutFlight(w, o, rest), o, again);
      && Copies(w', owner, ref) == (
           if (o, again) == (owner, ref) then 1 + Carried(rest, ref)
           else Ledgered(w, owner, ref) + if owner == o then Carried(rest, ref) else InFlight(w, owner, ref))
      && (IsSingle(w', owner) <==> if owner == o then SingleFlight(rest) else IsSingle(w, owner))
  {
    hide Note, PutFlight, Copies, IsSingle, InFlight, Carries, Refs;
    NoteCopies(PutFlight(w, o, rest), o, again, owner, ref);
    FlightCopies(w, o, rest, owner, ref);
    FlightInPut(w, o, rest, owner, ref);
  }

  lemma LookUpOneBalances(
    w: World, o: Owner, rest: Flight, looked: string, up: bool, owner: Owner, ref: string)
    requires rest.current.None? && looked !in rest.pending
    requires if owner == o then
        Ledgered(w, owner, ref) + (if ref == looked then 1 else Carried(rest, ref)) <= Balance(w.log, owner, ref)
      else Balanced(w, owner, ref)
    ensures Balanced(LookUpOne(w, o, rest, looked, up), owner, ref)
  {
    hide Note, PutFlight, Copies, IsSingle, InFlight, Refs, Balance, SplitRef, KeyOf;
    var found := rest.(current := Some(looked));
    CopiesAre(w, owner, ref);
    BalanceNext(w.log, Discarded(o, looked), owner, ref);
    FlightCopies(w, o, rest, owner, ref);
    FlightCopies(w, o, found, owner, ref);
    NotedAgain(w, o, rest, looked, owner, ref);
    var put := PutFlight(w, o, rest);
    SameCopies(put, Logged(put, Discarded(o, looked)), owner, ref);
    assert Note(put, o, looked).log == w.log && PutFlight(w, o, found).log == w.log && put.log == w.log by {
      LogKept(w, o, rest, looked);
      LogKept(w, o, found, looked);
    }
  }

  lemma LogKept(w: World, o: Owner, flight: Flight, noted: string)
    ensures PutFlight(w, o, flight).log == w.log && Note(PutFlight(w, o, flight), o, noted).log == w.log
  {
  }

  lemma LookUpBalances(w: World, o: Owner, looked: string, up: bool, owner: Owner, ref: string)
    requires Balanced(w, owner, ref)
    ensures Balanced(DoLookUp(w, o, looked, up), owner, ref)
  {
    hide Balance, LookUpOne, InFlight, Refs;
    if CanLookUp(w, o, looked) {
      FlightOf(w, o, ref);
      LookUpOneBalances(
        w, o, w.flights[o].(pending := w.flights[o].pending - {looked}), looked, up, owner, ref);
    }
  }

  /** The promotion failed, or reported an error: the ref is noted again. */
  lemma AgainBalances(
    w: World, put: World, o: Owner, rest: Flight, current: string, es: seq<Event>, owner: Owner, ref: string)
    requires put.ledger == w.ledger && put.flights == w.flights && put.log == w.log
    requires rest.current.None? && es in {[], [PromotedUnseen(o, current)]}
    requires if owner == o then
        Ledgered(w, owner, ref) + (if ref == current then 1 else Carried(rest, ref)) <= Balance(w.log, owner, ref)
        && (ref == current ==> Carried(rest, ref) == 0)
      else Balanced(w, owner, ref)
    ensures var w' := Note(PutFlight(put, o, rest), o, current); Balanced(w'.(log := w.log + es), owner, ref)
  {
    hide Note, PutFlight, Copies, IsSingle, InFlight, Refs, Balance, Carried, Ledgered;
    BalanceOfOthers(w.log, es, owner, ref);
    NotedAgain(put, o, rest, current, owner, ref);
    SameHolding(w, put, owner, ref);
    var w' := Note(PutFlight(put, o, rest), o, current);
    SameCopies(w', w'.(log := w.log + es), owner, ref);
    CopiesAre(w, owner, ref);
  }

  /** The promotion was seen to work: the flight drops the ref. */
  lemma DoneBalances(
    w: World, put: World, o: Owner, counted: Flight, current: string, owner: Owner, ref: string)
    requires put.ledger == w.ledger && put.flights == w.flights && put.log == w.log && counted.current.None?
    requires if owner == o then
        Ledgered(w, owner, ref) + (if ref == current then 1 else Carried(counted, ref)) <= Balance(w.log, owner, ref)
        && (ref == current ==> Carried(counted, ref) == 0)
      else Balanced(w, owner, ref)
    ensures Balanced(Logged(PutFlight(put, o, counted), Promoted(o, current)), owner, ref)
  {
    hide PutFlight, Copies, IsSingle, InFlight, Refs, Balance, Carried, Ledgered;
    BalanceNext(w.log, Promoted(o, current), owner, ref);
    FlightCopies(put, o, counted, owner, ref);
    SameHolding(w, put, owner, ref);
    LogKept(put, o, counted, current);
    var done := PutFlight(put, o, counted);
    SameCopies(done, Logged(done, Promoted(o, current)), owner, ref);
    CopiesAre(w, owner, ref);
  }

  lemma CopiesAre(w: World, owner: Owner, ref: string)
    ensures Copies(w, owner, ref) == Ledgered(w, owner, ref) + InFlight(w, owner, ref)
  {
  }

  lemma PromoteOneBalances(
    w: World, o: Owner, rest: Flight, current: string, reply: Reply, owner: Owner, ref: string)
    requires rest.current.None?
    requires if owner == o then
        Ledgered(w, owner, ref) + (if ref == current then 1 else Carried(rest, ref)) <= Balance(w.log, owner, ref)
        && (ref == current ==> Carried(rest, ref) == 0)
      else Balanced(w, owner, ref)
    ensures Balanced(PromoteOne(w, o, rest, current, reply), owner, ref)
  {
    hide Note, PutFlight, Balanced, InFlight, Refs, Balance, SplitRef, KeyOf, Ledgered;
    var counted := rest.(promoted := rest.promoted + 1);
    assert Carried(counted, ref) == Carried(rest, ref);
    hide Carried;
    AgainBalances(w, w, o, rest, current, [], owner, ref);
    LogKept(w, o, rest, current);
    var same := Note(PutFlight(w, o, rest), o, current);
    assert w.log + [] == w.log && same.(log := w.log + []) == same;
    if SplitRef(current).Some? && KeyOf(current) in w.jobs {
      var put := PutJob(w, KeyOf(current), Waiting);
      AgainBalances(w, put, o, rest, current, [PromotedUnseen(o, current)], owner, ref);
      LogKept(put, o, rest, current);
      DoneBalances(w, put, o, counted, current, owner, ref);
    }
  }

  lemma SameHolding(w: World, w': World, owner: Owner, ref: string)
    requires w'.ledger == w.ledger && w'.flights == w.flights
    ensures Ledgered(w', owner, ref) == Ledgered(w, owner, ref)
    ensures InFlight(w', owner, ref) == InFlight(w, owner, ref) && (IsSingle(w', owner) <==> IsSingle(w, owner))
  {
  }

  lemma PromoteBalances(w: World, o: Owner, reply: Reply, owner: Owner, ref: string)
    requires Balanced(w, owner, ref)
    ensures Balanced(DoPromote(w, o, reply), owner, ref)
  {
    hide Balance, PromoteOne, InFlight, Refs;
    if o in w.flights && w.flights[o].current.Some? {
      FlightOf(w, o, ref);
      PromoteOneBalances(
        w, o, w.flights[o].(current := None), w.flights[o].current.value, reply, owner, ref);
    }
  }

  lemma CrashBalances(w: World, proc: nat, owner: Owner, ref: string)
    requires Balanced(w, owner, ref)
    ensures Balanced(DoCrash(w, proc), owner, ref)
  {
    hide Balance, RunsIn;
    BalanceNext(w.log, Crashed(proc), owner, ref);
  }

  lemma OthersBalance(w: World, action: Action, owner: Owner, ref: string)
    requires Balanced(w, owner, ref)
    requires action.AddJob? || action.RemoveJob? || action.SetOrganisation? || action.SetKey? || action.Tick?
      || action.Wake? || action.Pick? || action.WriteLetter?
    ensures Balanced(Next(w, action), owner, ref)
  {
    hide Balanced, Balance, QUEUE_NAMES;
    match action
    case AddJob(key, _, _, _, _) =>
      BalanceNext(w.log, Added(key), owner, ref);
      SameBalance(w, Next(w, action), owner, ref);
    case WriteLetter(a, _) =>
      if a in w.letters {
        BalanceNext(w.log, DeadLettered(a, w.letters[a]), owner, ref);
        BalanceNext(w.log, LetterRefused(a, w.letters[a]), owner, ref);
      }
      SameBalance(w, Next(w, action), owner, ref);
    case _ => SameBalance(w, Next(w, action), owner, ref);
  }

  lemma NextBalances(w: World, action: Action, owner: Owner, ref: string)
    requires Holders(w) && Balanced(w, owner, ref)
    ensures Balanced(Next(w, action), owner, ref)
  {
    hide Holders, Balanced, DoGo, DoCrash, DoTake, DoFinish, DoLookUp, DoPromote;
    match action
    case Go(a, outcome) => GoBalances(w, a, outcome, owner, ref);
    case Crash(proc) => CrashBalances(w, proc, owner, ref);
    case Take(o) => TakeBalances(w, o, owner, ref);
    case Finish(o) => TakeBalances(w, o, owner, ref);
    case LookUp(o, looked, up) => LookUpBalances(w, o, looked, up, owner, ref);
    case Promote(o, reply) => PromoteBalances(w, o, reply, owner, ref);
    case _ => OthersBalance(w, action, owner, ref);
  }

  lemma {:induction false} RunBalances(actions: seq<Action>, owner: Owner, ref: string)
    ensures Balanced(Run(EMPTY_WORLD, actions), owner, ref)
  {
    if actions != [] {
      hide Next, Balanced, Holders;
      var before := actions[..|actions| - 1];
      RunBalances(before, owner, ref);
      RunHolds(before);
      NextBalances(Run(EMPTY_WORLD, before), actions[|actions| - 1], owner, ref);
    }
  }

  /**
   * In every run a ref is promoted, or its job found gone, at most as often as
   * the same process has noted it for the same tenant; what is held now has
   * been noted once more for every place that holds it.
   */
  lemma NotesSettleOnce(actions: seq<Action>, owner: Owner, ref: string)
    ensures
      var w := Run(EMPTY_WORLD, actions);
      && Balance(w.log, owner, ref) >= 0
      && (Held(w, owner, ref) ==> Balance(w.log, owner, ref) >= 1)
      && (ref in Refs(w, owner) && InFlight(w, owner, ref) == 1 ==> Balance(w.log, owner, ref) >= 2)
  {
    hide Run, Balance, Refs, Carries;
    RunBalances(actions, owner, ref);
  }
}
