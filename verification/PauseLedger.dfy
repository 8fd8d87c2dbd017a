/**
 * The process-local ledger of paused jobs, and the loop that promotes them
 * when the tenant's key is active again.
 */
module PauseLedger {
  import opened Common
  import opened TenantGates

  /** What the queue answers for one ref: the job is gone, was promoted, or the call threw. */
  datatype Answer = Gone | Promoted | Threw

  function Entries(pausedJobs: map<string, set<string>>, organisationId: string): set<string> {
    if organisationId in pausedJobs then pausedJobs[organisationId] else {}
  }

  predicate AnswersWith(answers: map<string, Answer>, ref: string, answer: Answer) {
    SplitRef(ref).Some? && ref in answers && answers[ref] == answer
  }

  /** The refs of a list that got an answer. */
  function Answered(refs: seq<string>, answers: map<string, Answer>, answer: Answer): set<string> {
    if refs == [] then {}
    else
      Answered(refs[..|refs| - 1], answers, answer) +
      if AnswersWith(answers, refs[|refs| - 1], answer) then {refs[|refs| - 1]} else {}
  }

  lemma {:induction false} AnsweredMembers(refs: seq<string>, answers: map<string, Answer>, answer: Answer)
    ensures forall ref :: ref in Answered(refs, answers, answer) <==> ref in refs && AnswersWith(answers, ref, answer)
  {
    hide AnswersWith;
    if refs != [] {
      AnsweredMembers(refs[..|refs| - 1], answers, answer);
      assert refs == refs[..|refs| - 1] + [refs[|refs| - 1]];
    }
  }

  function WithAnswer(refs: set<string>, answers: map<string, Answer>, answer: Answer): set<string> {
    set ref | ref in refs && AnswersWith(answers, ref, answer)
  }

  lemma AnsweredIsFilter(refs: seq<string>, all: set<string>, answers: map<string, Answer>, answer: Answer)
    requires forall ref :: ref in refs <==> ref in all
    ensures Answered(refs, answers, answer) == WithAnswer(all, answers, answer)
  {
    hide AnswersWith;
    AnsweredMembers(refs, answers, answer);
  }

  lemma AnsweredGrows(refs: seq<string>, i: nat, answers: map<string, Answer>, answer: Answer)
    requires i < |refs| && forall k :: 0 <= k < i ==> refs[k] != refs[i]
    ensures Answered(refs[..i + 1], answers, answer) ==
      Answered(refs[..i], answers, answer) + if AnswersWith(answers, refs[i], answer) then {refs[i]} else {}
    ensures refs[i] !in Answered(refs[..i], answers, answer)
  {
    hide AnswersWith;
    assert refs[..i + 1][..i] == refs[..i];
    AnsweredMembers(refs[..i], answers, answer);
  }

  lemma AnsweredNone(answers: map<string, Answer>)
    ensures forall answer :: Answered([], answers, answer) == {}
  {
  }

  class Ledger {
    var pausedJobs: map<string, set<string>>

    constructor ()
      ensures pausedJobs == map[]
    {
      pausedJobs := map[];
    }

    method Remember(organisationId: string, ref: string)
      modifies this
      ensures pausedJobs ==
        old(pausedJobs)[organisationId := Entries(old(pausedJobs), organisationId) + {ref}]
    {
      var existing := Entries(pausedJobs, organisationId);
      existing := existing + {ref};
      pausedJobs := pausedJobs[organisationId := existing];
    }

    /** The organisation's refs, each once, in some order; the ledger forgets them. */
    method Take(organisationId: string) returns (refs: seq<string>)
      modifies this
      ensures forall ref :: ref in refs <==> ref in Entries(old(pausedJobs), organisationId)
      ensures forall i, j :: 0 <= i < j < |refs| ==> refs[i] != refs[j]
      ensures pausedJobs == old(pausedJobs) - {organisationId}
    {
      var existing := Entries(pausedJobs, organisationId);
      pausedJobs := pausedJobs - {organisationId};
      refs := [];
      while existing != {}
        invariant forall ref :: ref in refs || ref in existing <==> ref in Entries(old(pausedJobs), organisationId)
        invariant forall ref :: ref in refs ==> ref !in existing
        invariant forall i, j :: 0 <= i < j < |refs| ==> refs[i] != refs[j]
        decreases |existing|
      {
        var ref :| ref in existing;
        existing := existing - {ref};
        refs := refs + [ref];
      }
    }

    method Clear()
      modifies this
      ensures pausedJobs == map[]
    {
      pausedJobs := map[];
    }

    /** One turn of the promotion loop. */
    method PromoteOne(organisationId: string, ref: string, answers: map<string, Answer>) returns (promoted: bool)
      requires ref in answers
      modifies this
      ensures promoted <==> AnswersWith(answers, ref, Promoted)
      ensures Entries(pausedJobs, organisationId) ==
        Entries(old(pausedJobs), organisationId) + if AnswersWith(answers, ref, Threw) then {ref} else {}
      ensures forall other :: other != organisationId ==>
        Entries(pausedJobs, other) == Entries(old(pausedJobs), other)
    {
      promoted := false;
      if SplitRef(ref).None? {
        return;
      }
      match answers[ref]
      case Gone =>
      case Promoted => promoted := true;
      case Threw => Remember(organisationId, ref);
    }

    /**
     * `promotePausedTenantJobs`. Of the refs it takes, exactly those whose
     * promotion threw are remembered again, under the same tenant; it returns
     * how many were promoted; no other tenant's refs move.
     */
    method PromotePausedTenantJobs(organisationId: string, answers: map<string, Answer>) returns (promoted: nat)
      requires forall ref :: ref in Entries(pausedJobs, organisationId) ==> ref in answers
      modifies this
      ensures Entries(pausedJobs, organisationId)
        == WithAnswer(Entries(old(pausedJobs), organisationId), answers, Threw)
      ensures promoted == |WithAnswer(Entries(old(pausedJobs), organisationId), answers, Promoted)|
      ensures forall other :: other != organisationId ==>
        Entries(pausedJobs, other) == Entries(old(pausedJobs), other)
    {
      hide AnswersWith, Answered, WithAnswer;
      var refs := Take(organisationId);
      promoted := 0;
      AnsweredNone(answers);
      for i := 0 to |refs|
        invariant promoted == |Answered(refs[..i], answers, Promoted)|
        invariant Entries(pausedJobs, organisationId) == Answered(refs[..i], answers, Threw)
        invariant forall other :: other != organisationId ==>
          Entries(pausedJobs, other) == Entries(old(pausedJobs), other)
      {
        AnsweredGrows(refs, i, answers, Promoted);
        AnsweredGrows(refs, i, answers, Threw);
        var counted := PromoteOne(organisationId, refs[i], answers);
        if counted {
          promoted := promoted + 1;
        }
      }
      assert refs[..|refs|] == refs;
      AnsweredIsFilter(refs, Entries(old(pausedJobs), organisationId), answers, Promoted);
      AnsweredIsFilter(refs, Entries(old(pausedJobs), organisationId), answers, Threw);
    }
  }
}
