/** The timer that sweeps tenant keys and so drives promotion: one sweep in flight, none begun after a stop. */
module KeyHealthLoop {

  datatype Event = TimerFires | SweepSettles | StopCalled

  /** The loop's flags, and what they are meant to say. */
  datatype Flags = Flags(running: bool, stopped: bool, inFlight: nat, begun: nat)

  /** `tick`: dropped while a sweep is running. */
  function Ticked(f: Flags): Flags {
    if f.running then f else f.(running := true, inFlight := f.inFlight + 1, begun := f.begun + 1)
  }

  function After(f: Flags, e: Event): Flags {
    match e
    case TimerFires => if f.stopped then f else Ticked(f)
    case SweepSettles => if f.inFlight == 0 then f else f.(running := false, inFlight := f.inFlight - 1)
    case StopCalled => f.(stopped := true)
  }

  /** The loop ticks once when it starts. */
  function AfterAll(events: seq<Event>): Flags {
    if events == [] then Ticked(Flags(false, false, 0, 0))
    else After(AfterAll(events[..|events| - 1]), events[|events| - 1])
  }

  /** Whatever the order of ticks, settlements and stops, at most one sweep is in flight. */
  lemma {:induction false} OneSweepInFlight(events: seq<Event>)
    ensures AfterAll(events).inFlight == if AfterAll(events).running then 1 else 0
  {
    if events != [] {
      OneSweepInFlight(events[..|events| - 1]);
    }
  }

  /** Once the loop is stopped no sweep begins, and stopping again changes nothing. */
  lemma {:induction false} NothingBeginsAfterStop(before: seq<Event>, after: seq<Event>)
    ensures AfterAll(before + [StopCalled] + after).begun == AfterAll(before).begun
    ensures AfterAll(before + [StopCalled] + after).stopped
  {
    var all := before + [StopCalled] + after;
    if after == [] {
      assert all[..|all| - 1] == before;
    } else {
      assert all[..|all| - 1] == before + [StopCalled] + after[..|after| - 1];
      NothingBeginsAfterStop(before, after[..|after| - 1]);
    }
  }

  lemma {:induction false} StoppedExactly(events: seq<Event>)
    ensures AfterAll(events).stopped <==> StopCalled in events
  {
    if events != [] {
      StoppedExactly(events[..|events| - 1]);
      assert events == events[..|events| - 1] + [events[|events| - 1]];
    }
  }

  lemma OneMore(events: seq<Event>, e: Event)
    ensures AfterAll(events + [e]) == After(AfterAll(events), e)
  {
    assert (events + [e])[..|events|] == events;
  }

  /**
   * When sweeps begin: one at the start, and one whenever the timer fires, no
   * sweep is in flight and the loop has not been stopped; when it settles the
   * next may begin.
   */
  lemma SweepsBeginExactly(events: seq<Event>)
    ensures AfterAll([]).running && AfterAll([]).begun == 1
    ensures
      var f := AfterAll(events);
      && AfterAll(events + [Event.TimerFires]) == (
           if StopCalled in events || f.inFlight == 1 then f
           else f.(running := true, inFlight := 1, begun := f.begun + 1))
      && AfterAll(events + [Event.SweepSettles]) == f.(running := false, inFlight := 0)
      && AfterAll(events + [StopCalled]) == f.(stopped := true)
  {
    assert AfterAll([]).running && AfterAll([]).begun == 1;
    hide AfterAll;
    OneSweepInFlight(events);
    StoppedExactly(events);
    OneMore(events, Event.TimerFires);
    OneMore(events, Event.SweepSettles);
    OneMore(events, StopCalled);
  }

  /** `startKeyHealthLoop` */
  class Loop {
    var running: bool
    var stopped: bool
    var timerSet: bool
    ghost var events: seq<Event>
    ghost var inFlight: nat

    ghost predicate Valid()
      reads this
    {
      var f := AfterAll(events);
      running == f.running && stopped == f.stopped && inFlight == f.inFlight && timerSet == !stopped
    }

    constructor ()
      ensures Valid() && events == [] && inFlight == 1 && running && timerSet
    {
      running, stopped, timerSet, events, inFlight := false, false, true, [], 0;
      new;
      Tick();
    }

    method Tick()
      modifies `running, `inFlight
      ensures running
      ensures inFlight == old(inFlight) + if old(running) then 0 else 1
    {
      if running {
        return;
      }
      running := true;
      inFlight := inFlight + 1;
    }

    method TimerFires()
      requires Valid()
      modifies this
      ensures Valid() && events == old(events) + [Event.TimerFires]
      ensures running == (old(running) || old(timerSet)) && timerSet == old(timerSet)
      ensures inFlight == if old(timerSet) && !old(running) then 1 else old(inFlight)
    {
      OneSweepInFlight(events);
      if timerSet {
        Tick();
      }
      assert (events + [Event.TimerFires])[..|events|] == events;
      events := events + [Event.TimerFires];
    }

    method SweepSettles()
      requires Valid() && inFlight > 0
      modifies this
      ensures Valid() && events == old(events) + [Event.SweepSettles]
      ensures inFlight == 0 && !running && timerSet == old(timerSet)
    {
      OneSweepInFlight(events);
      running := false;
      inFlight := inFlight - 1;
      assert (events + [Event.SweepSettles])[..|events|] == events;
      events := events + [Event.SweepSettles];
    }

    method Stop()
      requires Valid()
      modifies this
      ensures Valid() && events == old(events) + [StopCalled]
      ensures !timerSet && running == old(running) && inFlight == old(inFlight)
    {
      assert (events + [StopCalled])[..|events|] == events;
      events := events + [StopCalled];
      if stopped {
        return;
      }
      stopped := true;
      timerSet := false;
    }
  }
}
