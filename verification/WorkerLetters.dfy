/**
 * Dead letters. BullMQ commits a scan's last failure; the `failed` handler then
 * writes the letter, later and on its own, and a refusal or a crash can lose it.
 */
module WorkerLetters {
  import opened Common
  import opened TenantGates
  import opened WorkerModel
  import opened WorkerLog
  import opened WorkerPlaces
  import opened WorkerAttempts

  // ---- The letter of one activation -------------------------------------------------

  predicate IsDue(e: Event, a: nat) {
    e.LetterDue? && e.act == a
  }

  predicate IsWritten(e: Event, a: nat) {
    e.DeadLettered? && e.act == a
  }

  predicate IsRefused(e: Event, a: nat) {
    e.LetterRefused? && e.act == a
  }

  ghost predicate Written(log: seq<Event>, a: nat) {
    exists j :: 0 <= j < |log| && IsWritten(log[j], a)
  }

  ghost predicate Refused(log: seq<Event>, a: nat) {
    exists j :: 0 <= j < |log| && IsRefused(log[j], a)
  }

  /** After position `i` the process died before the letter was written. */
  ghost predicate CrashedFirst(log: seq<Event>, i: nat, a: nat, proc: nat) {
    exists j :: i < j < |log| && log[j] == Crashed(proc) && !Written(log[..j], a)
  }

  function DueAt(log: seq<Event>, a: nat): Option<nat> {
    if log == [] then None
    else
      match DueAt(log[..|log| - 1], a)
      case Some(i) => Some(i)
      case None => if IsDue(log[|log| - 1], a) then Some(|log| - 1) else None
  }

  /** The letter the activation left and nothing has settled yet. */
  function OpenLetter(log: seq<Event>, a: nat): Option<Letter> {
    if log == [] then None
    else
      var open, e := OpenLetter(log[..|log| - 1], a), log[|log| - 1];
      if IsDue(e, a) then Some(e.letter)
      else if IsWritten(e, a) || IsRefused(e, a) || (open.Some? && e == Crashed(open.value.proc)) then None
      else open
  }

  /** A letter falls due once, and is written or refused only while it is open. */
  predicate IsOrderly(log: seq<Event>, a: nat) {
    log == [] ||
    var front, e := log[..|log| - 1], log[|log| - 1];
    && IsOrderly(front, a)
    && (IsDue(e, a) ==> DueAt(front, a).None?)
    && (IsWritten(e, a) || IsRefused(e, a) ==> OpenLetter(front, a) == Some(e.letter))
  }

  lemma NextFate(log: seq<Event>, e: Event, a: nat)
    ensures DueAt(log + [e], a) ==
      if DueAt(log, a).Some? then DueAt(log, a) else if IsDue(e, a) then Some(|log|) else None
    ensures OpenLetter(log + [e], a) ==
      var open := OpenLetter(log, a);
      if IsDue(e, a) then Some(e.letter)
      else if IsWritten(e, a) || IsRefused(e, a) || (open.Some? && e == Crashed(open.value.proc)) then None
      else open
    ensures IsOrderly(log + [e], a) <==>
      && IsOrderly(log, a)
      && (IsDue(e, a) ==> DueAt(log, a).None?)
      && (IsWritten(e, a) || IsRefused(e, a) ==> OpenLetter(log, a) == Some(e.letter))
  {
    hide IsDue, IsWritten, IsRefused;
    assert (log + [e])[..|log|] == log;
  }

  lemma NextWritten(log: seq<Event>, e: Event, a: nat)
    ensures Written(log + [e], a) <==> Written(log, a) || IsWritten(e, a)
    ensures Refused(log + [e], a) <==> Refused(log, a) || IsRefused(e, a)
  {
    var all := log + [e];
    assert all[|log|] == e && forall j :: 0 <= j < |log| ==> all[j] == log[j];
  }

  lemma NextCrashedFirst(log: seq<Event>, e: Event, i: nat, a: nat, proc: nat)
    requires i < |log|
    ensures CrashedFirst(log + [e], i, a, proc) <==>
      CrashedFirst(log, i, a, proc) || (e == Crashed(proc) && !Written(log, a))
  {
    hide Written;
    var all := log + [e];
    assert all[..|log|] == log && all[|log|] == e;
    assert forall j :: 0 <= j < |log| ==> all[j] == log[j] && all[..j] == log[..j];
  }

  /** What the log says of a letter that fell due at `i`. */
  ghost predicate FateFits(log: seq<Event>, a: nat, i: nat) {
    && i < |log| && IsDue(log[i], a)
    && (OpenLetter(log, a).Some? ==> OpenLetter(log, a) == Some(log[i].letter))
    && (!Written(log, a) <==>
          OpenLetter(log, a).Some? || Refused(log, a) || CrashedFirst(log, i, a, log[i].letter.proc))
    && (OpenLetter(log, a).Some? ==> !Refused(log, a) && !CrashedFirst(log, i, a, log[i].letter.proc))
  }

  /** The letter of an orderly log is missing exactly when it is open, was refused, or its process died first. */
  lemma {:induction false} FateOf(log: seq<Event>, a: nat)
    requires IsOrderly(log, a)
    ensures match DueAt(log, a)
      case None => OpenLetter(log, a).None? && !Written(log, a) && !Refused(log, a)
      case Some(i) => FateFits(log, a, i)
  {
    if log != [] {
      var front, e := log[..|log| - 1], log[|log| - 1];
      assert log == front + [e];
      FateOf(front, a);
      NextWritten(front, e, a);
      match DueAt(front, a)
      case None =>
        if IsDue(e, a) {
          NoCrashYet(log, a, |front|, e.letter.proc);
        }
      case Some(i) =>
        hide Written, Refused, CrashedFirst;
        NextCrashedFirst(front, e, i, a, front[i].letter.proc);
    }
  }

  lemma NoCrashYet(log: seq<Event>, a: nat, i: nat, proc: nat)
    requires |log| == i + 1
    ensures !CrashedFirst(log, i, a, proc)
  {
  }

  // ---- Over runs --------------------------------------------------------------------

  /** The processes hold exactly the letters that are open, and no live activation has left one. */
  ghost predicate LetterFits(w: World, a: nat) {
    && IsOrderly(w.log, a)
    && OpenLetter(w.log, a) == (if a in w.letters then Some(w.letters[a]) else None)
    && (a >= w.nextAct || a in w.acts ==> DueAt(w.log, a).None?)
  }

  predicate IsOther(e: Event, a: nat) {
    !IsDue(e, a) && !IsWritten(e, a) && !IsRefused(e, a) && !e.Crashed?
  }

  /** Says nothing of letters, whoever's they are. */
  predicate IsMute(e: Event) {
    !e.LetterDue? && !e.DeadLettered? && !e.LetterRefused? && !e.Crashed?
  }

  lemma {:induction false} OthersKeepFate(log: seq<Event>, es: seq<Event>, a: nat)
    requires forall e :: e in es ==> IsOther(e, a)
    ensures DueAt(log + es, a) == DueAt(log, a)
    ensures OpenLetter(log + es, a) == OpenLetter(log, a)
    ensures IsOrderly(log + es, a) <==> IsOrderly(log, a)
  {
    if es == [] {
      assert log + es == log;
    } else {
      OthersKeepFate(log, es[..|es| - 1], a);
      assert IsOther(es[|es| - 1], a);
      assert log + es == (log + es[..|es| - 1]) + [es[|es| - 1]];
      NextFate(log + es[..|es| - 1], es[|es| - 1], a);
    }
  }

  lemma EnterLetters(w: World, a: nat)
    requires a in w.acts && w.acts[a].key in w.jobs
    ensures EnterGate(w, a).letters == w.letters
  {
    hide IsPlatformAuditJob, AcceptsWork, OrganisationOf;
  }

  lemma InnerLetters(w: World, a: nat)
    requires a in w.acts && w.acts[a].key in w.jobs
    ensures InnerGate(w, a).letters == w.letters
  {
    hide IsPlatformAuditJob, InnerActive, OrganisationOf, AUDIT_VERIFY;
  }

  lemma ProceedLetters(w: World, a: nat)
    requires a in w.acts && w.acts[a].key in w.jobs
    ensures Proceed(w, a).letters == w.letters
  {
    hide EnterGate, InnerGate, KeyStatusOf, OrganisationOf, TenantJobAction, MakeRef, Refs;
    EnterLetters(w, a);
    InnerLetters(w, a);
  }

  /** The letters after the events of one call. */
  function LettersAfter(letters: map<nat, Letter>, a: nat, es: seq<Event>): map<nat, Letter> {
    if es != [] && es[|es| - 1].LetterDue? then letters[a := es[|es| - 1].letter] else letters
  }

  lemma MuteKeepsLetters(letters: map<nat, Letter>, a: nat, es: seq<Event>)
    requires forall e :: e in es ==> IsMute(e)
    ensures LettersAfter(letters, a, es) == letters
  {
    if es != [] {
      assert es[|es| - 1] in es;
    }
  }

  lemma FailLetters(w: World, a: nat, err: Failure, retryDelay: nat)
    requires a in w.acts && w.acts[a].key in w.jobs
    requires !Excused(w.acts[a].key.queue, SiteOf(w.acts[a].stage), err)
    ensures Fail(w, a, err, retryDelay).letters == LettersAfter(w.letters, a, ThrowEvents(w, a, err))
  {
    hide Excused, SiteOf, Retries;
    var job := w.jobs[w.acts[a].key];
    var spent := job.(attemptsMade := job.attemptsMade + 1,
                      place := if Retries(job.attemptsMade, job.attempts)
                               then PlaceAfter(w.now, retryDelay) else Failed);
    assert DeadLetters(w.acts[a].key.queue, spent)
      == DeadLetters(w.acts[a].key.queue, job.(attemptsMade := job.attemptsMade + 1));
  }

  lemma ThrowLetters(w: World, a: nat, err: Failure, retryDelay: nat)
    requires a in w.acts && w.acts[a].key in w.jobs
    ensures OnError(w, a, err, retryDelay).letters == LettersAfter(w.letters, a, ThrowEvents(w, a, err))
  {
    hide Fail, HasLimiter, MALWARE_SCAN, DeadLetters, SiteOf;
    if !Excused(w.acts[a].key.queue, SiteOf(w.acts[a].stage), err) {
      FailLetters(w, a, err, retryDelay);
    }
  }

  lemma ProceedOwesNone(w: World, a: nat)
    requires a in w.acts
    ensures forall e :: e in ProceedEvents(w, a) ==> IsMute(e)
  {
    hide IsPlatformAuditJob, AcceptsWork, OrganisationOf, InnerActive, KeyStatusOf, MakeRef, AUDIT_VERIFY;
  }

  lemma RememberLetters(w: World, a: nat)
    requires a in w.acts
    ensures RememberPausedJob(w, a).letters == w.letters
  {
    hide OrganisationOf, MakeRef, Refs;
  }

  lemma LostMoveIsMute(w: World, a: nat, err: Failure)
    requires a in w.acts && w.acts[a].key in w.jobs && w.acts[a].stage.Moving?
    ensures LoseMove(w, a, w.acts[a].stage.wake, err).letters == w.letters
    ensures forall e :: e in LostMoveEvents(w, a, err) ==> IsMute(e) && !e.Added?
  {
    hide OrganisationOf;
  }

  lemma GoLetters(w: World, a: nat, outcome: Outcome)
    ensures DoGo(w, a, outcome).letters == LettersAfter(w.letters, a, GoEvents(w, a, outcome))
  {
    hide Proceed, OnError, LoseMove, RememberPausedJob, ProceedEvents, ThrowEvents, LostMoveEvents, LettersAfter;
    MuteKeepsLetters(w.letters, a, []);
    if a in w.acts {
      ProceedOwesNone(w, a);
      MuteKeepsLetters(w.letters, a, ProceedEvents(w, a));
      if w.acts[a].stage.Remembering? {
        RememberLetters(w, a);
      } else if w.acts[a].key in w.jobs {
        match outcome
        case Return => ProceedLetters(w, a);
        case Throw(err, retryDelay, _) =>
          ThrowLetters(w, a, err, retryDelay);
          if IsLostMove(w.acts[a].stage, outcome) {
            LostMoveIsMute(w, a, err);
            MuteKeepsLetters(w.letters, a, LostMoveEvents(w, a, err));
          }
      }
    }
  }

  lemma ThrowOwes(w: World, a: nat, err: Failure)
    requires a in w.acts && w.acts[a].key in w.jobs
    ensures
      var es := ThrowEvents(w, a, err);
      && IsMute(es[0]) && 1 <= |es| <= 2
      && (|es| == 2 ==>
            && IsDue(es[1], a)
            && es[1].letter == Letter(w.acts[a].proc, w.acts[a].key, w.jobs[w.acts[a].key].attempts))
  {
    hide Excused, DeadLetters, SiteOf;
  }

  /** The events of a call: none of letters, or a failure and the letter it owes. */
  lemma GoOwes(w: World, b: nat, outcome: Outcome)
    ensures
      var es := GoEvents(w, b, outcome);
      || (forall e :: e in es ==> IsMute(e))
      || (&& |es| == 2 && IsMute(es[0]) && IsDue(es[1], b)
          && b in w.acts && w.acts[b].key in w.jobs && !w.acts[b].stage.Remembering? && outcome.Throw?
          && !IsLostMove(w.acts[b].stage, outcome) && es == ThrowEvents(w, b, outcome.err))
  {
    hide ProceedEvents, ThrowEvents, LostMoveEvents, IsMute, IsDue;
    if b in w.acts {
      ProceedOwesNone(w, b);
      if !w.acts[b].stage.Remembering? && w.acts[b].key in w.jobs && IsLostMove(w.acts[b].stage, outcome) {
        LostMoveIsMute(w, b, outcome.err);
      } else if !w.acts[b].stage.Remembering? && w.acts[b].key in w.jobs && outcome.Throw? {
        ThrowOwes(w, b, outcome.err);
        var es := ThrowEvents(w, b, outcome.err);
        assert forall e :: e in es ==> e == es[0] || (|es| == 2 && e == es[1]);
      }
    }
  }

  lemma GoKeepsLetter(w: World, b: nat, outcome: Outcome, a: nat)
    requires Holders(w) && LetterFits(w, a)
    ensures LetterFits(DoGo(w, b, outcome), a)
  {
    hide Holders, DoGo, OpenLetter, DueAt, IsOrderly, GoEvents, ThrowEvents;
    var es := GoEvents(w, b, outcome);
    HolderOf(w, b);
    GoLogs(w, b, outcome);
    GoLetters(w, b, outcome);
    GoOwes(w, b, outcome);
    if b in w.acts {
      GoMoves(w, b, outcome);
    } else {
      UnknownGo(w, b, outcome);
    }
    if forall e :: e in es ==> IsMute(e) {
      MuteKeepsLetters(w.letters, b, es);
      OthersKeepFate(w.log, es, a);
    } else {
      FailEndsAct(w, b, outcome);
      assert w.log + es == (w.log + [es[0]]) + [es[1]];
      NextFate(w.log, es[0], a);
      NextFate(w.log + [es[0]], es[1], a);
    }
  }

  /** A call that leaves a letter was the activation's last. */
  lemma FailEndsAct(w: World, b: nat, outcome: Outcome)
    requires b in w.acts && w.acts[b].key in w.jobs && !w.acts[b].stage.Remembering? && outcome.Throw?
    requires |ThrowEvents(w, b, outcome.err)| == 2 && !IsLostMove(w.acts[b].stage, outcome)
    ensures b !in DoGo(w, b, outcome).acts
  {
    hide Fail, DeadLetters, SiteOf, HasLimiter, MALWARE_SCAN;
    FailEnds(w, b, outcome.err, outcome.retryDelay);
  }

  lemma CrashKeepsLetter(w: World, proc: nat, a: nat)
    requires LetterFits(w, a)
    ensures LetterFits(DoCrash(w, proc), a)
  {
    hide OpenLetter, DueAt, IsOrderly, RunsIn;
    NextFate(w.log, Crashed(proc), a);
  }

  lemma WriteKeepsLetter(w: World, b: nat, up: bool, a: nat)
    requires LetterFits(w, a)
    ensures LetterFits(DoWrite(w, b, up), a)
  {
    hide OpenLetter, DueAt, IsOrderly;
    if b in w.letters {
      NextFate(w.log, if up then DeadLettered(b, w.letters[b]) else LetterRefused(b, w.letters[b]), a);
    }
  }

  lemma OthersKeepLetters(w: World, action: Action)
    requires !action.Go? && !action.Crash? && !action.WriteLetter?
    ensures Next(w, action).letters == w.letters
  {
    hide DoLookUp, DoPromote, Refs, QUEUE_NAMES;
    match action
    case LookUp(owner, ref, up) => LookUpFrame(w, owner, ref, up);
    case Promote(owner, reply) => PromoteKeepsLetters(w, owner, reply);
    case _ =>
  }

  lemma PromoteKeepsLetters(w: World, owner: Owner, reply: Reply)
    ensures DoPromote(w, owner, reply).letters == w.letters
  {
    hide SplitRef, Refs, KeyOf;
  }

  lemma OthersKeepLetter(w: World, action: Action, a: nat)
    requires !action.Go? && !action.Crash? && !action.WriteLetter?
    requires Holders(w) && LetterFits(w, a)
    ensures LetterFits(Next(w, action), a)
  {
    hide Holders, OpenLetter, DueAt, IsOrderly, KeepsActive, Next;
    OthersKeepLetters(w, action);
    OthersLog(w, action);
    OthersLogMute(w, action);
    var log := Next(w, action).log;
    if log != w.log {
      assert log == w.log + [log[|log| - 1]];
      NextFate(w.log, log[|log| - 1], a);
    }
    OthersKeepIds(w, action, a);
  }

  lemma OthersKeepIds(w: World, action: Action, a: nat)
    requires !action.Go? && !action.Crash? && Holders(w)
    ensures a >= Next(w, action).nextAct || a in Next(w, action).acts ==> a >= w.nextAct || a in w.acts
  {
    hide Holders, KeepsActive;
    if !action.Pick? {
      hide Next;
      OthersKeepSameActs(w, action);
    }
  }

  lemma OthersKeepSameActs(w: World, action: Action)
    requires !action.Go? && !action.Pick? && !action.Crash?
    ensures Next(w, action).acts == w.acts && Next(w, action).nextAct == w.nextAct
  {
    hide Next;
    OthersKeepActive(w, action);
  }

  ghost predicate LogsMutely(before: seq<Event>, after: seq<Event>) {
    after == before || (after != [] && IsMute(after[|after| - 1]))
  }

  lemma LookUpLogsMutely(w: World, owner: Owner, ref: string, up: bool)
    ensures LogsMutely(w.log, DoLookUp(w, owner, ref, up).log)
  {
    hide SplitRef, Refs, KeyOf;
  }

  lemma PromoteLogsMutely(w: World, owner: Owner, reply: Reply)
    ensures LogsMutely(w.log, DoPromote(w, owner, reply).log)
  {
    hide SplitRef, Refs, KeyOf;
  }

  lemma OthersLogMute(w: World, action: Action)
    requires !action.Go? && !action.Crash? && !action.WriteLetter?
    ensures LogsMutely(w.log, Next(w, action).log)
  {
    hide DoLookUp, DoPromote, Refs, QUEUE_NAMES;
    match action
    case LookUp(owner, ref, up) => LookUpLogsMutely(w, owner, ref, up);
    case Promote(owner, reply) => PromoteLogsMutely(w, owner, reply);
    case _ =>
  }

  lemma NextKeepsLetter(w: World, action: Action, a: nat)
    requires Holders(w) && LetterFits(w, a)
    ensures LetterFits(Next(w, action), a)
  {
    hide Holders, LetterFits, DoGo, DoCrash, DoWrite;
    match action
    case Go(b, outcome) => GoKeepsLetter(w, b, outcome, a);
    case Crash(proc) => CrashKeepsLetter(w, proc, a);
    case WriteLetter(b, up) => WriteKeepsLetter(w, b, up, a);
    case _ =>
      hide Next;
      OthersKeepLetter(w, action, a);
  }

  lemma {:induction false} LettersFit(actions: seq<Action>, a: nat)
    ensures LetterFits(Run(EMPTY_WORLD, actions), a)
  {
    if actions != [] {
      hide Next, LetterFits, Holders;
      var before := actions[..|actions| - 1];
      LettersFit(before, a);
      RunHolds(before);
      NextKeepsLetter(Run(EMPTY_WORLD, before), actions[|actions| - 1], a);
    }
  }

  // ---- Letters are earned -------------------------------------------------------------

  /** A letter falls due for a scan whose genuine failures have just reached its attempts. */
  ghost predicate Earned(log: seq<Event>, i: nat)
    requires i < |log|
  {
    log[i].LetterDue? ==>
      && log[i].letter.key.queue == MALWARE_SCAN
      && Failures(log[..i], log[i].letter.key) == MaxAttempts(log[i].letter.attempts)
  }

  ghost predicate LettersEarned(log: seq<Event>) {
    forall i :: 0 <= i < |log| ==> Earned(log, i)
  }

  lemma EarnedNext(log: seq<Event>, e: Event)
    requires LettersEarned(log)
    requires e.LetterDue? ==>
      e.letter.key.queue == MALWARE_SCAN && Failures(log, e.letter.key) == MaxAttempts(e.letter.attempts)
    ensures LettersEarned(log + [e])
  {
    hide Failures, MALWARE_SCAN, MaxAttempts;
    forall i | 0 <= i < |log + [e]|
      ensures Earned(log + [e], i)
    {
      assert i < |log| ==> Earned(log, i) && (log + [e])[..i] == log[..i];
      assert (log + [e])[..|log|] == log;
    }
  }

  lemma {:induction false} MuteEarns(log: seq<Event>, es: seq<Event>)
    requires LettersEarned(log) && forall e :: e in es ==> IsMute(e)
    ensures LettersEarned(log + es)
  {
    hide LettersEarned;
    if es == [] {
      assert log + es == log;
    } else {
      MuteEarns(log, es[..|es| - 1]);
      assert log + es == (log + es[..|es| - 1]) + [es[|es| - 1]];
      assert IsMute(es[|es| - 1]);
      EarnedNext(log + es[..|es| - 1], es[|es| - 1]);
    }
  }

  lemma DueIsEarned(w: World, b: nat, err: Failure)
    requires b in w.acts && w.acts[b].key in w.jobs && JobAccounted(w, w.acts[b].key) && LettersEarned(w.log)
    requires w.jobs[w.acts[b].key].place != Failed && |ThrowEvents(w, b, err)| == 2
    ensures LettersEarned(w.log + ThrowEvents(w, b, err))
  {
    hide LettersEarned, Failures, SiteOf, Excused;
    var es := ThrowEvents(w, b, err);
    FailuresNext(w.log, es[0], w.acts[b].key);
    EarnedNext(w.log, es[0]);
    EarnedNext(w.log + [es[0]], es[1]);
    assert w.log + es == (w.log + [es[0]]) + [es[1]];
  }

  lemma GoEarns(w: World, b: nat, outcome: Outcome)
    requires Holders(w) && LettersEarned(w.log) && forall key :: JobAccounted(w, key)
    ensures LettersEarned(DoGo(w, b, outcome).log)
  {
    hide LettersEarned, Holders, DoGo, JobAccounted, GoEvents, ThrowEvents;
    var es := GoEvents(w, b, outcome);
    HolderOf(w, b);
    GoLogs(w, b, outcome);
    GoOwes(w, b, outcome);
    if forall e :: e in es ==> IsMute(e) {
      MuteEarns(w.log, es);
    } else {
      DueIsEarned(w, b, outcome.err);
    }
  }

  lemma NextEarns(w: World, action: Action)
    requires Holders(w) && LettersEarned(w.log) && forall key :: JobAccounted(w, key)
    ensures LettersEarned(Next(w, action).log)
  {
    hide LettersEarned, Holders, JobAccounted, DoGo;
    if action.Go? {
      GoEarns(w, action.act, action.outcome);
    } else {
      hide Next;
      OthersLog(w, action);
      var log := Next(w, action).log;
      if log != w.log {
        assert log == w.log + [log[|log| - 1]];
        EarnedNext(w.log, log[|log| - 1]);
      }
    }
  }

  lemma {:induction false} RunEarns(actions: seq<Action>)
    ensures LettersEarned(Run(EMPTY_WORLD, actions).log)
  {
    if actions != [] {
      hide Next, LettersEarned, Holders, JobAccounted;
      var before := actions[..|actions| - 1];
      RunEarns(before);
      RunHolds(before);
      forall key
        ensures JobAccounted(Run(EMPTY_WORLD, before), key)
      {
        AccountedInRun(before, key);
      }
      NextEarns(Run(EMPTY_WORLD, before), actions[|actions| - 1]);
    }
  }

  /** The letter at `j` was owed since `i`, by a scan that had then used up its attempts. */
  ghost predicate OwedSince(log: seq<Event>, j: nat, i: nat)
    requires i < |log| && j < |log|
  {
    && log[j].DeadLettered? && i < j && log[i] == LetterDue(log[j].act, log[j].letter)
    && log[j].letter.key.queue == "malware-scan"
    && Failures(log[..i], log[j].letter.key) == MaxAttempts(log[j].letter.attempts)
  }

  /** What is written was open just before: it had fallen due, and nothing had settled it. */
  lemma {:induction false} WrittenWasOpen(log: seq<Event>, a: nat, j: nat)
    requires IsOrderly(log, a) && j < |log| && (IsWritten(log[j], a) || IsRefused(log[j], a))
    ensures IsOrderly(log[..j], a) && OpenLetter(log[..j], a) == Some(log[j].letter)
  {
    if j < |log| - 1 {
      WrittenWasOpen(log[..|log| - 1], a, j);
      assert log[..|log| - 1][..j] == log[..j];
    }
  }

  lemma {:induction false} DueAtIs(log: seq<Event>, a: nat)
    ensures DueAt(log, a).Some? ==> DueAt(log, a).value < |log| && IsDue(log[DueAt(log, a).value], a)
  {
    if log != [] {
      DueAtIs(log[..|log| - 1], a);
    }
  }

  /**
   * In every run a letter is written only for a scan whose genuine failures had
   * reached its attempts, however many pauses came between, and only once.
   */
  lemma DeadLettersAreEarned(actions: seq<Action>, j: nat)
    requires j < |Run(EMPTY_WORLD, actions).log| && Run(EMPTY_WORLD, actions).log[j].DeadLettered?
    ensures
      var log := Run(EMPTY_WORLD, actions).log;
      && (exists i: nat :: i < |log| && OwedSince(log, j, i))
      && (forall k :: 0 <= k < |log| && IsWritten(log[k], log[j].act) ==> k == j)
  {
    hide Run, Earned, OpenLetter, DueAt, IsOrderly, Failures, MALWARE_SCAN;
    var log := Run(EMPTY_WORLD, actions).log;
    var a := log[j].act;
    LettersFit(actions, a);
    RunEarns(actions);
    WrittenWasOpen(log, a, j);
    FateOf(log[..j], a);
    DueAtIs(log[..j], a);
    var i := DueAt(log[..j], a).value;
    assert log[..j][i] == log[i] && log[..i] == log[..j][..i];
    assert Earned(log, i);
    OwedSinceIs(log, j, i);
    forall k | 0 <= k < |log| && IsWritten(log[k], a)
      ensures k == j
    {
      WrittenOnce(log, a, j, k);
      WrittenOnce(log, a, k, j);
    }
  }

  lemma OwedSinceIs(log: seq<Event>, j: nat, i: nat)
    requires i < j < |log| && log[j].DeadLettered? && IsDue(log[i], log[j].act) && log[i].letter == log[j].letter
    requires Earned(log, i)
    ensures OwedSince(log, j, i)
  {
    hide Failures;
  }

  lemma WrittenOnce(log: seq<Event>, a: nat, j: nat, k: nat)
    requires IsOrderly(log, a) && j < |log| && k < |log| && IsWritten(log[j], a) && IsWritten(log[k], a)
    ensures !(k < j)
  {
    hide OpenLetter, DueAt, IsOrderly;
    WrittenWasOpen(log, a, j);
    FateOf(log[..j], a);
    NotWrittenBefore(log, a, j, k);
  }

  lemma NotWrittenBefore(log: seq<Event>, a: nat, j: nat, k: nat)
    requires j < |log| && k < |log| && !Written(log[..j], a)
    ensures k < j ==> !IsWritten(log[k], a)
  {
    assert k < j ==> log[..j][k] == log[k];
  }

  // ---- Letters are lost -----------------------------------------------------------------

  /** The scan's last failure since it was added, which owes the letter. */
  ghost predicate IsLastFailure(log: seq<Event>, i: nat, key: JobKey, attempts: Option<int>) {
    && i < |log| && log[i].LetterDue? && log[i].letter.key == key && log[i].letter.attempts == attempts
    && forall j :: i < j < |log| ==> log[j] != Added(key)
  }

  ghost predicate OwesLetter(w: World, key: JobKey) {
    key in w.jobs && w.jobs[key].place == Failed && DeadLetters(key.queue, w.jobs[key]) ==>
      exists i :: IsLastFailure(w.log, i, key, w.jobs[key].attempts)
  }

  /** The step fails no job that had not failed, and adds this one only if it has not. */
  ghost predicate FailsNothing(w: World, w': World, key: JobKey) {
    && w.log <= w'.log
    && (key in w'.jobs && w'.jobs[key].place == Failed ==>
          && key in w.jobs && w.jobs[key] == w'.jobs[key]
          && forall j :: |w.log| <= j < |w'.log| ==> w'.log[j] != Added(key))
  }

  lemma NothingFailedStillOwes(w: World, w': World, key: JobKey)
    requires OwesLetter(w, key) && FailsNothing(w, w', key)
    ensures OwesLetter(w', key)
  {
    hide DeadLetters;
    if key in w'.jobs && w'.jobs[key].place == Failed && DeadLetters(key.queue, w'.jobs[key]) {
      var i: nat :| IsLastFailure(w.log, i, key, w.jobs[key].attempts);
      assert forall j :: 0 <= j < |w.log| ==> w'.log[j] == w.log[j];
      assert IsLastFailure(w'.log, i, key, w'.jobs[key].attempts);
    }
  }

  lemma FailOwes(w: World, a: nat, err: Failure, retryDelay: nat, key: JobKey)
    requires a in w.acts && w.acts[a].key in w.jobs && OwesLetter(w, key)
    requires !Excused(w.acts[a].key.queue, SiteOf(w.acts[a].stage), err)
    ensures OwesLetter(Fail(w, a, err, retryDelay), key)
  {
    hide Fail, SiteOf, Excused, Retries, OwesLetter;
    FailLogs(w, a, err, retryDelay);
    FailAttempts(w, a, err, retryDelay);
    ThrowAddsNone(w, a, err, key);
    var w' := Fail(w, a, err, retryDelay);
    if key != w.acts[a].key {
      NothingFailedStillOwes(w, w', key);
    } else {
      FailedJobOwes(w, w', a, err, key);
    }
  }

  lemma ThrowAddsNone(w: World, a: nat, err: Failure, key: JobKey)
    requires a in w.acts && w.acts[a].key in w.jobs
    ensures forall e :: e in ThrowEvents(w, a, err) ==> e != Added(key)
  {
    hide DeadLetters, Excused, SiteOf;
  }

  lemma FailedJobOwes(w: World, w': World, a: nat, err: Failure, key: JobKey)
    requires a in w.acts && w.acts[a].key == key && key in w.jobs && key in w'.jobs
    requires !Excused(key.queue, SiteOf(w.acts[a].stage), err)
    requires w'.log == w.log + ThrowEvents(w, a, err)
    requires w'.jobs[key] == w.jobs[key].(attemptsMade := w.jobs[key].attemptsMade + 1, place := w'.jobs[key].place)
    ensures OwesLetter(w', key)
  {
    hide Excused, SiteOf;
    if DeadLetters(key.queue, w'.jobs[key]) {
      assert DeadLetters(key.queue, w.jobs[key].(attemptsMade := w.jobs[key].attemptsMade + 1));
      assert IsLastFailure(w'.log, |w.log| + 1, key, w'.jobs[key].attempts);
    }
  }

  lemma ProceedAddsNone(w: World, a: nat, key: JobKey)
    requires a in w.acts
    ensures forall e :: e in ProceedEvents(w, a) ==> e != Added(key)
  {
    hide ProceedEvents;
    ProceedIsQuiet(w, a);
  }

  lemma RememberFailsNothing(w: World, a: nat, key: JobKey)
    requires a in w.acts && w.acts[a].stage.Remembering?
    ensures FailsNothing(w, RememberPausedJob(w, a), key)
  {
    hide OrganisationOf, MakeRef, Refs;
  }

  lemma ProceedFailsNothing(w: World, a: nat, key: JobKey)
    requires a in w.acts && w.acts[a].key in w.jobs && !w.acts[a].stage.Remembering?
    ensures FailsNothing(w, Proceed(w, a), key)
  {
    hide Proceed, ProceedEvents;
    ProceedPlaces(w, a);
    ProceedLogs(w, a);
    ProceedAddsNone(w, a, key);
    var w', es := Proceed(w, a), ProceedEvents(w, a);
    assert forall j :: |w.log| <= j < |w'.log| ==> w'.log[j] in es;
    var job := w.jobs[w.acts[a].key];
    assert w'.jobs == w.jobs[w.acts[a].key := job.(place := w'.jobs[w.acts[a].key].place)];
    assert job.(place := job.place) == job;
  }

  lemma ExcusedFailsNothing(w: World, a: nat, err: Failure, retryDelay: nat, key: JobKey)
    requires a in w.acts && w.acts[a].key in w.jobs
    requires Excused(w.acts[a].key.queue, SiteOf(w.acts[a].stage), err)
    ensures FailsNothing(w, OnError(w, a, err, retryDelay), key)
  {
    hide Fail, HasLimiter, MALWARE_SCAN, SiteOf;
  }

  lemma LostMoveFailsNothing(w: World, a: nat, err: Failure, key: JobKey)
    requires a in w.acts && w.acts[a].key in w.jobs && w.acts[a].stage.Moving?
    ensures FailsNothing(w, LoseMove(w, a, w.acts[a].stage.wake, err), key)
  {
    hide OrganisationOf;
  }

  lemma GoStillOwes(w: World, a: nat, outcome: Outcome, key: JobKey)
    requires Holders(w) && OwesLetter(w, key)
    ensures OwesLetter(DoGo(w, a, outcome), key)
  {
    hide Holders, OwesLetter, FailsNothing, Proceed, RememberPausedJob, LoseMove, OnError;
    HolderOf(w, a);
    if a in w.acts {
      if w.acts[a].stage.Remembering? {
        RememberFailsNothing(w, a, key);
        NothingFailedStillOwes(w, RememberPausedJob(w, a), key);
      } else if outcome.Return? {
        ProceedFailsNothing(w, a, key);
        NothingFailedStillOwes(w, Proceed(w, a), key);
      } else if IsLostMove(w.acts[a].stage, outcome) {
        LostMoveFailsNothing(w, a, outcome.err, key);
        NothingFailedStillOwes(w, LoseMove(w, a, w.acts[a].stage.wake, outcome.err), key);
      } else {
        ThrowStillOwes(w, a, outcome.err, outcome.retryDelay, key);
      }
    }
  }

  lemma ThrowStillOwes(w: World, a: nat, err: Failure, retryDelay: nat, key: JobKey)
    requires a in w.acts && w.acts[a].key in w.jobs && OwesLetter(w, key)
    ensures OwesLetter(OnError(w, a, err, retryDelay), key)
  {
    hide OwesLetter, FailsNothing, Fail, HasLimiter, MALWARE_SCAN, SiteOf;
    if Excused(w.acts[a].key.queue, SiteOf(w.acts[a].stage), err) {
      ExcusedFailsNothing(w, a, err, retryDelay, key);
      NothingFailedStillOwes(w, OnError(w, a, err, retryDelay), key);
    } else {
      FailOwes(w, a, err, retryDelay, key);
    }
  }

  lemma AddFailsNothing(
    w: World, added: JobKey, name: string, data: Json, attempts: Option<int>, delay: nat, key: JobKey)
    ensures FailsNothing(w, DoAdd(w, added, name, data, attempts, delay), key)
  {
    hide QUEUE_NAMES;
  }

  lemma QueueFailsNothing(w: World, action: Action, key: JobKey)
    requires action.RemoveJob? || action.Wake? || action.Pick? || action.Crash? || action.WriteLetter?
    ensures FailsNothing(w, Next(w, action), key)
  {
    hide DoCrash, DoWrite;
    match action
    case Crash(proc) => CrashFailsNothing(w, proc, key);
    case WriteLetter(a, up) => WriteFailsNothing(w, a, up, key);
    case _ =>
  }

  lemma CrashFailsNothing(w: World, proc: nat, key: JobKey)
    ensures FailsNothing(w, DoCrash(w, proc), key)
  {
  }

  lemma WriteFailsNothing(w: World, a: nat, up: bool, key: JobKey)
    ensures FailsNothing(w, DoWrite(w, a, up), key)
  {
  }

  lemma LookUpFailsNothing(w: World, owner: Owner, ref: string, up: bool, key: JobKey)
    ensures FailsNothing(w, DoLookUp(w, owner, ref, up), key)
  {
    hide DoLookUp, Refs;
    LookUpFrame(w, owner, ref, up);
    LookUpLogs(w, owner, ref, up);
    LookUpAddsNone(w, owner, ref, up, key);
  }

  lemma TakeFailsNothing(w: World, owner: Owner, key: JobKey)
    ensures FailsNothing(w, DoTake(w, owner), key)
  {
    hide Refs;
  }

  lemma FinishFailsNothing(w: World, owner: Owner, key: JobKey)
    ensures FailsNothing(w, DoFinish(w, owner), key)
  {
  }

  lemma LookUpAddsNone(w: World, owner: Owner, ref: string, up: bool, key: JobKey)
    ensures var log := DoLookUp(w, owner, ref, up).log; log != [] && log != w.log ==> log[|log| - 1] != Added(key)
  {
    hide SplitRef, Refs, KeyOf;
  }

  lemma PromoteFailsNothing(w: World, owner: Owner, reply: Reply, key: JobKey)
    ensures FailsNothing(w, DoPromote(w, owner, reply), key)
  {
    hide DoPromote, SplitRef;
    var ref := PromotePromotes(w, owner, reply);
    PromoteLogs(w, owner, reply);
    PromoteAddsNone(w, owner, reply, key);
  }

  lemma PromoteAddsNone(w: World, owner: Owner, reply: Reply, key: JobKey)
    ensures var log := DoPromote(w, owner, reply).log; log != [] && log != w.log ==> log[|log| - 1] != Added(key)
  {
    hide SplitRef, Refs, KeyOf;
  }

  lemma OthersFailNothing(w: World, action: Action, key: JobKey)
    requires !action.Go?
    ensures FailsNothing(w, Next(w, action), key)
  {
    hide FailsNothing, DoAdd, DoTake, DoFinish, DoLookUp, DoPromote;
    match action
    case AddJob(added, name, data, attempts, delay) => AddFailsNothing(w, added, name, data, attempts, delay, key);
    case LookUp(owner, ref, up) => LookUpFailsNothing(w, owner, ref, up, key);
    case Take(owner) => TakeFailsNothing(w, owner, key);
    case Finish(owner) => FinishFailsNothing(w, owner, key);
    case Promote(owner, reply) => PromoteFailsNothing(w, owner, reply, key);
    case SetOrganisation(_, _) => StatusFailsNothing(w, action, key);
    case SetKey(_, _) => StatusFailsNothing(w, action, key);
    case Tick(_) => StatusFailsNothing(w, action, key);
    case _ => QueueFailsNothing(w, action, key);
  }

  lemma StatusFailsNothing(w: World, action: Action, key: JobKey)
    requires action.SetOrganisation? || action.SetKey? || action.Tick?
    ensures FailsNothing(w, Next(w, action), key)
  {
  }

  lemma {:induction false} FailedScansOwe(actions: seq<Action>, key: JobKey)
    ensures OwesLetter(Run(EMPTY_WORLD, actions), key)
  {
    if actions != [] {
      hide Next, OwesLetter, Holders;
      var before := actions[..|actions| - 1];
      FailedScansOwe(before, key);
      RunHolds(before);
      NextStillOwes(Run(EMPTY_WORLD, before), actions[|actions| - 1], key);
    }
  }

  lemma NextStillOwes(w: World, action: Action, key: JobKey)
    requires Holders(w) && OwesLetter(w, key)
    ensures OwesLetter(Next(w, action), key)
  {
    hide Holders, OwesLetter, FailsNothing, DoGo;
    if action.Go? {
      GoStillOwes(w, action.act, action.outcome, key);
    } else {
      hide Next;
      OthersFailNothing(w, action, key);
      NothingFailedStillOwes(w, Next(w, action), key);
    }
  }

  /** Why a letter owed since `i` is not in the dead-letter queue. */
  ghost predicate IsMissing(w: World, i: nat)
    requires i < |w.log| && w.log[i].LetterDue?
  {
    var a := w.log[i].act;
    a in w.letters || Refused(w.log, a) || CrashedFirst(w.log, i, a, w.log[i].letter.proc)
  }

  /**
   * In every reachable state, a scan that has failed for good owes a letter
   * since its last failure, and lacks it exactly when the write is still to
   * come, was refused, or its process died first.
   */
  lemma LetterIsMissingExactly(actions: seq<Action>, key: JobKey)
    ensures
      var w := Run(EMPTY_WORLD, actions);
      key in w.jobs && w.jobs[key].place == Failed && IsScan(key.queue, w.jobs[key]) ==>
        exists i: nat :: IsLastFailure(w.log, i, key, w.jobs[key].attempts)
          && (!Written(w.log, w.log[i].act) <==> IsMissing(w, i))
  {
    hide Run, DeadLetters, Written, Refused, CrashedFirst, IsScan, MaxAttempts;
    var w := Run(EMPTY_WORLD, actions);
    FailedScansOwe(actions, key);
    AccountedInRun(actions, key);
    if key in w.jobs {
      DeadLettersExactly(key.queue, w.jobs[key]);
    }
    if key in w.jobs && w.jobs[key].place == Failed && DeadLetters(key.queue, w.jobs[key]) {
      var i: nat :| IsLastFailure(w.log, i, key, w.jobs[key].attempts);
      var a := w.log[i].act;
      LettersFit(actions, a);
      FateOf(w.log, a);
      DueOnce(w.log, a, i);
    }
  }

  /** An activation's letter falls due once. */
  lemma {:induction false} DueOnce(log: seq<Event>, a: nat, i: nat)
    requires IsOrderly(log, a) && i < |log| && IsDue(log[i], a)
    ensures DueAt(log, a) == Some(i)
  {
    if i < |log| - 1 {
      DueOnce(log[..|log| - 1], a, i);
    } else {
      assert DueAt(log[..i], a).None?;
    }
  }

  function Scan(data: Json, attemptsMade: nat, place: Place): Job {
    Job("scan", data, Some(1), attemptsMade, place)
  }

  /** The world after the scan is added and picked up. */
  function PickedScan(key: JobKey, data: Json): World {
    EMPTY_WORLD.(jobs := map[key := Scan(data, 0, Running(0))], acts := map[0 := Act(0, key, data, Enter)],
                 nextAct := 1, log := [Added(key)])
  }

  function AddedScan(key: JobKey, data: Json): World {
    EMPTY_WORLD.(jobs := map[key := Scan(data, 0, Waiting)], log := [Added(key)])
  }

  lemma ScanIsAdded(key: JobKey, data: Json)
    requires key.queue == MALWARE_SCAN && key.id != ""
    ensures Next(EMPTY_WORLD, AddJob(key, "scan", data, Some(1), 0)) == AddedScan(key, data)
  {
    assert QUEUE_NAMES[0] == MALWARE_SCAN;
    hide QUEUE_NAMES, MALWARE_SCAN;
  }

  lemma ScanIsPicked(key: JobKey, data: Json)
    ensures Next(AddedScan(key, data), Pick(key, 0)) == PickedScan(key, data)
  {
  }

  lemma GoIsDoGo(w: World, a: nat, outcome: Outcome)
    ensures Next(w, Go(a, outcome)) == DoGo(w, a, outcome)
  {
    hide DoGo;
  }

  lemma CrashIsDoCrash(w: World, proc: nat)
    ensures Next(w, Crash(proc)) == DoCrash(w, proc)
  {
    hide DoCrash;
  }

  lemma ScanFails(key: JobKey, data: Json)
    requires key.queue == MALWARE_SCAN
    requires Field(data, "evidenceId").JString? && Field(data, "evidenceId").s != ""
    ensures
      var w := DoGo(PickedScan(key, data), 0, Throw(OtherError, 0, false));
      && w.jobs == map[key := Scan(data, 1, Failed)] && w.acts == map[]
      && w.letters == map[0 := Letter(0, key, Some(1))]
      && w.log == [Added(key), Threw(0, key, AtGates, OtherError), LetterDue(0, Letter(0, key, Some(1)))]
  {
    hide MALWARE_SCAN, HasLimiter;
  }

  lemma CrashedScan(key: JobKey, data: Json)
    requires key.queue == MALWARE_SCAN
    requires Field(data, "evidenceId").JString? && Field(data, "evidenceId").s != ""
    ensures
      var w := DoCrash(DoGo(PickedScan(key, data), 0, Throw(OtherError, 0, false)), 0);
      && key in w.jobs && w.jobs[key].place == Failed && DeadLetters(key.queue, w.jobs[key])
      && w.letters == map[] && !Written(w.log, 0)
  {
    ScanFails(key, data);
    hide DoGo, PickedScan, MALWARE_SCAN;
  }

  lemma RunFour(a: Action, b: Action, c: Action, d: Action)
    ensures Run(EMPTY_WORLD, [a, b, c, d]) == Next(Next(Next(Next(EMPTY_WORLD, a), b), c), d)
  {
    hide Next;
    assert [a][..0] == [] && Run(EMPTY_WORLD, [a]) == Next(EMPTY_WORLD, a);
    assert [a, b][..1] == [a] && Run(EMPTY_WORLD, [a, b]) == Next(Next(EMPTY_WORLD, a), b);
    assert [a, b, c][..2] == [a, b];
    assert [a, b, c, d][..3] == [a, b, c];
  }

  /** The queue accepts every write, and a scan still fails for good without its letter. */
  lemma CrashLosesLetter(key: JobKey, data: Json) returns (actions: seq<Action>)
    requires key.queue == MALWARE_SCAN && key.id != ""
    requires Field(data, "evidenceId").JString? && Field(data, "evidenceId").s != ""
    ensures forall action :: action in actions ==> !action.WriteLetter?
    ensures
      var w := Run(EMPTY_WORLD, actions);
      && key in w.jobs && w.jobs[key].place == Failed && DeadLetters(key.queue, w.jobs[key])
      && w.letters == map[] && !Written(w.log, 0)
  {
    var add, throw := AddJob(key, "scan", data, Some(1), 0), Throw(OtherError, 0, false);
    actions := [add, Pick(key, 0), Go(0, throw), Crash(0)];
    RunFour(add, Pick(key, 0), Go(0, throw), Crash(0));
    hide Next, Run, DoGo, DoCrash, PickedScan, AddedScan, MALWARE_SCAN, DeadLetters, Written;
    ScanIsAdded(key, data);
    ScanIsPicked(key, data);
    GoIsDoGo(PickedScan(key, data), 0, throw);
    CrashIsDoCrash(DoGo(PickedScan(key, data), 0, throw), 0);
    CrashedScan(key, data);
  }
}
