/**
 * Several workers reconcile one queue at the same time, interleaved at the
 * level of single upserts, page reads and removals.
 */
module SchedulerRace {
  import opened Common
  import opened Scheduler

  datatype Phase =
    | Upserting(todo: set<string>)
    | Reading(start: nat, seen: seq<string>)
    | Removing(stale: set<string>)

  datatype Reconciler = Reconciler(wanted: set<string>, phase: Phase)

  /** The ids in the queue, in listing order, and the reconciles in flight. */
  datatype Race = Race(listing: seq<string>, workers: map<nat, Reconciler>)

  datatype Action =
    | Start(r: nat, wanted: set<string>)
    | Upsert(r: nat, id: string, place: nat)
    | ReadPage(r: nat)
    | Remove(r: nat, id: string)
    | Finish(r: nat)
    | Kill(r: nat)
    | Reorder(listing: seq<string>)

  function Put(s: Race, r: nat, phase: Phase): Race
    requires r in s.workers
  {
    s.(workers := s.workers[r := s.workers[r].(phase := phase)])
  }

  function Insert(listing: seq<string>, id: string, place: nat): seq<string> {
    if id in listing then listing
    else if place <= |listing| then listing[..place] + [id] + listing[place..]
    else listing + [id]
  }

  function Without(listing: seq<string>, id: string): (r: seq<string>)
    ensures forall x :: x in r <==> x in listing && x != id
  {
    if listing == [] then []
    else
      var last := listing[|listing| - 1];
      assert listing == listing[..|listing| - 1] + [last];
      Without(listing[..|listing| - 1], id) + if last == id then [] else [last]
  }

  function StaleIn(seen: seq<string>, queue: string, wanted: set<string>): set<string> {
    set id | id in seen && IsOurs(id, queue) && id !in wanted
  }

  function Page(listing: seq<string>, start: nat): seq<string> {
    if |listing| <= start then []
    else listing[start..if |listing| <= start + PAGE_SIZE then |listing| else start + PAGE_SIZE]
  }

  /** One page; a short page ends the listing. */
  function Read(s: Race, queue: string, r: nat, start: nat, seen: seq<string>): Race
    requires r in s.workers
  {
    var page := Page(s.listing, start);
    Put(s, r,
      if |page| < PAGE_SIZE then Removing(StaleIn(seen + page, queue, s.workers[r].wanted))
      else Reading(start + PAGE_SIZE, seen + page))
  }

  function Next(s: Race, queue: string, action: Action): Race {
    match action
    case Start(r, wanted) =>
      if r in s.workers then s else s.(workers := s.workers[r := Reconciler(wanted, Upserting(wanted))])
    case Upsert(r, id, place) =>
      if r in s.workers && s.workers[r].phase.Upserting? && id in s.workers[r].phase.todo
      then Put(s, r, Upserting(s.workers[r].phase.todo - {id})).(listing := Insert(s.listing, id, place))
      else s
    case ReadPage(r) =>
      if r !in s.workers then s
      else
        (match s.workers[r].phase
         case Upserting(todo) => if todo == {} then Read(s, queue, r, 0, []) else s
         case Reading(start, seen) => Read(s, queue, r, start, seen)
         case Removing(_) => s)
    case Remove(r, id) =>
      if r in s.workers && s.workers[r].phase.Removing? && id in s.workers[r].phase.stale
      then Put(s, r, Removing(s.workers[r].phase.stale - {id})).(listing := Without(s.listing, id))
      else s
    case Finish(r) =>
      if r in s.workers && s.workers[r].phase == Removing({}) then s.(workers := s.workers - {r}) else s
    case Kill(r) => s.(workers := s.workers - {r})
    case Reorder(listing) => if multiset(listing) == multiset(s.listing) then s.(listing := listing) else s
  }

  function Run(s: Race, queue: string, actions: seq<Action>): Race {
    if actions == [] then s
    else Next(Run(s, queue, actions[..|actions| - 1]), queue, actions[|actions| - 1])
  }

  // ---- Safety -----------------------------------------------------------------

  /** No worker is about to remove an id it wants, or one that is not the queue's. */
  ghost predicate RemovesOnlyStale(s: Race, queue: string, r: nat) {
    r in s.workers && s.workers[r].phase.Removing? ==>
      forall id :: id in s.workers[r].phase.stale ==> IsOurs(id, queue) && id !in s.workers[r].wanted
  }

  ghost predicate Good(s: Race, queue: string) {
    forall r :: RemovesOnlyStale(s, queue, r)
  }

  lemma NextIsGood(s: Race, queue: string, action: Action)
    requires Good(s, queue)
    ensures Good(Next(s, queue, action), queue)
  {
    hide IsOurs, Insert, Without, Page;
    var s' := Next(s, queue, action);
    forall r
      ensures RemovesOnlyStale(s', queue, r)
    {
      assert RemovesOnlyStale(s, queue, r);
    }
  }

  lemma {:induction false} RunIsGood(s: Race, queue: string, actions: seq<Action>)
    requires s.workers == map[]
    ensures Good(Run(s, queue, actions), queue)
  {
    if actions != [] {
      hide Next;
      RunIsGood(s, queue, actions[..|actions| - 1]);
      NextIsGood(Run(s, queue, actions[..|actions| - 1]), queue, actions[|actions| - 1]);
    }
  }

  /** Every reconcile in flight wants the id, or it is not the queue's to remove. */
  ghost predicate Protected(s: Race, queue: string, id: string) {
    IsOurs(id, queue) ==> forall r :: r in s.workers ==> id in s.workers[r].wanted
  }

  predicate StartsWith(action: Action, queue: string, id: string) {
    action.Start? && IsOurs(id, queue) ==> id in action.wanted
  }

  lemma NextKeepsWanted(s: Race, queue: string, action: Action, id: string)
    requires Good(s, queue) && id in s.listing && Protected(s, queue, id) && StartsWith(action, queue, id)
    ensures id in Next(s, queue, action).listing && Protected(Next(s, queue, action), queue, id)
  {
    hide IsOurs, Page, StaleIn;
    if action.Remove? {
      assert RemovesOnlyStale(s, queue, action.r);
    } else if action.Reorder? {
      assert id in multiset(s.listing);
    } else if action.Upsert? {
      InsertKeeps(s.listing, action.id, action.place);
    }
  }

  lemma InsertKeeps(listing: seq<string>, id: string, place: nat)
    ensures forall x :: x in Insert(listing, id, place) <==> x in listing || x == id
  {
    assert place <= |listing| ==> listing == listing[..place] + listing[place..];
  }

  /**
   * However the steps of any number of reconciles interleave, and whichever of
   * them die half way, an id that is present and wanted by every reconcile in
   * flight (then and later) is never removed, and neither is a foreign id.
   */
  lemma {:induction false} WantedIsNeverRemoved(s: Race, queue: string, actions: seq<Action>, id: string)
    requires Good(s, queue) && id in s.listing && Protected(s, queue, id)
    requires forall action :: action in actions ==> StartsWith(action, queue, id)
    ensures id in Run(s, queue, actions).listing && Protected(Run(s, queue, actions), queue, id)
    ensures Good(Run(s, queue, actions), queue)
  {
    if actions != [] {
      hide Next, Good, Protected, StartsWith;
      var before := actions[..|actions| - 1];
      WantedIsNeverRemoved(s, queue, before, id);
      NextIsGood(Run(s, queue, before), queue, actions[|actions| - 1]);
      NextKeepsWanted(Run(s, queue, before), queue, actions[|actions| - 1], id);
    }
  }

  // ---- A reconcile that runs alone ------------------------------------------------

  /** Exactly the wanted ids and the foreign ones. */
  ghost predicate IsExact(listing: seq<string>, before: seq<string>, queue: string, wanted: set<string>) {
    forall id :: id in listing <==> if IsOurs(id, queue) then id in wanted else id in before
  }

  /** What the listing holds, by the phase of the one reconcile in flight. */
  ghost predicate PhaseFits(
    phase: Phase, listing: seq<string>, before: seq<string>, queue: string, wanted: set<string>)
  {
    match phase
    case Upserting(todo) =>
      todo <= wanted && forall id :: id in listing <==> id in before || (id in wanted && id !in todo)
    case Reading(start, seen) =>
      && start <= |listing| && seen == listing[..start]
      && forall id :: id in listing <==> id in before || id in wanted
    case Removing(stale) =>
      && (forall id :: id in stale ==> id !in wanted && IsOurs(id, queue))
      && forall id :: id in listing <==> if IsOurs(id, queue) then id in wanted || id in stale else id in before
  }

  ghost predicate Alone(s: Race, before: seq<string>, queue: string, r: nat, wanted: set<string>) {
    if r in s.workers then
      && s.workers.Keys == {r} && s.workers[r].wanted == wanted
      && PhaseFits(s.workers[r].phase, s.listing, before, queue, wanted)
    else s.workers == map[] && IsExact(s.listing, before, queue, wanted)
  }

  predicate IsStepOf(action: Action, r: nat) {
    && (action.Upsert? || action.ReadPage? || action.Remove? || action.Finish?)
    && action.r == r
  }

  lemma PageReads(listing: seq<string>, start: nat)
    requires start <= |listing|
    ensures var page := Page(listing, start);
      if |page| < PAGE_SIZE then listing[..start] + page == listing
      else start + PAGE_SIZE <= |listing| && listing[..start] + page == listing[..start + PAGE_SIZE]
  {
  }

  lemma ReadKeepsAlone(
    s: Race, before: seq<string>, queue: string, r: nat, wanted: set<string>, start: nat, seen: seq<string>)
    requires s.workers.Keys == {r} && s.workers[r].wanted == wanted
    requires PhaseFits(Reading(start, seen), s.listing, before, queue, wanted)
    requires forall id :: id in wanted ==> IsOurs(id, queue)
    ensures Alone(Read(s, queue, r, start, seen), before, queue, r, wanted)
  {
    hide IsOurs, Page;
    PageReads(s.listing, start);
  }

  lemma StepKeepsAlone(s: Race, before: seq<string>, queue: string, r: nat, wanted: set<string>, action: Action)
    requires Alone(s, before, queue, r, wanted) && IsStepOf(action, r)
    requires forall id :: id in wanted ==> IsOurs(id, queue)
    ensures Alone(Next(s, queue, action), before, queue, r, wanted)
  {
    hide IsOurs, Page, Read, Insert;
    if r in s.workers {
      match action
      case Upsert(_, id, place) => InsertKeeps(s.listing, id, place);
      case ReadPage(_) =>
        if s.workers[r].phase == Upserting({}) {
          ReadKeepsAlone(s, before, queue, r, wanted, 0, []);
        } else if s.workers[r].phase.Reading? {
          ReadKeepsAlone(s, before, queue, r, wanted, s.workers[r].phase.start, s.workers[r].phase.seen);
        }
      case Remove(_, id) =>
      case Finish(_) =>
    }
  }

  lemma {:induction false} StepsKeepAlone(
    s: Race, before: seq<string>, queue: string, r: nat, wanted: set<string>, actions: seq<Action>)
    requires Alone(s, before, queue, r, wanted) && forall id :: id in wanted ==> IsOurs(id, queue)
    requires forall action :: action in actions ==> IsStepOf(action, r)
    ensures Alone(Run(s, queue, actions), before, queue, r, wanted)
  {
    if actions != [] {
      hide Next, Alone, IsStepOf, IsOurs;
      StepsKeepAlone(s, before, queue, r, wanted, actions[..|actions| - 1]);
      StepKeepsAlone(Run(s, queue, actions[..|actions| - 1]), before, queue, r, wanted, actions[|actions| - 1]);
    }
  }

  /**
   * After any history, stale upserts and half-dead reconciles included: a
   * reconcile that starts once all others have ended, and runs alone to its
   * end, leaves the queue's own ids exactly its wanted set and every foreign id
   * as it was.
   */
  lemma LoneReconcileIsExact(history: seq<Action>, queue: string, r: nat, wanted: set<string>, steps: seq<Action>)
    requires forall id :: id in wanted ==> IsOurs(id, queue)
    requires forall action :: action in steps ==> IsStepOf(action, r)
    ensures
      var s := Run(Race([], map[]), queue, history);
      var s' := Run(Next(s, queue, Start(r, wanted)), queue, steps);
      s.workers == map[] && s'.workers == map[] ==> IsExact(s'.listing, s.listing, queue, wanted)
  {
    hide Run, IsOurs, IsStepOf;
    var s := Run(Race([], map[]), queue, history);
    if s.workers == map[] {
      StepsKeepAlone(Next(s, queue, Start(r, wanted)), s.listing, queue, r, wanted, steps);
    }
  }
}
