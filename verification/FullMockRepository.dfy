/** The session repository: Advance, Finish and Abandon against the transactions of FullMockRows. */
module FullMockRepository {
  import opened Common
  import opened AssessmentRows
  import opened FullMockRows
  import opened AssessmentRepository

  class SessionRepository {
    const attempts: Repository
    var sessions: map<Uuid, Session>

    constructor (attempts: Repository)
      ensures this.attempts == attempts && sessions == map[]
    {
      this.attempts := attempts;
      sessions := map[];
    }

    method Advance(id: Uuid, next: nat, complete: bool) returns (o: SessionOutcome)
      modifies this`sessions, attempts
      ensures !complete ==> attempts.Tables() == old(attempts.Tables())
      ensures !complete && id in old(sessions) ==>
                var (s, o') := AdvanceTx(old(sessions)[id], next); o == o' && sessions == old(sessions)[id := s]
      ensures complete && id in old(sessions) ==>
                var (d, s, o') := FinishTx(old(attempts.Tables()), old(sessions)[id]);
                attempts.Tables() == d && sessions == old(sessions)[id := s] && o == o'
      ensures id !in old(sessions) ==>
                attempts.Tables() == old(attempts.Tables()) && sessions == old(sessions) && !o.Moved?
    {
      if complete {
        o := Finish(id);
        return;
      }
      if id in sessions && sessions[id].status == SessionInProgress && sessions[id].current + 1 == next {
        sessions := sessions[id := sessions[id].(current := next)];
        return Moved;
      }
      assert id in sessions ==> sessions == sessions[id := sessions[id]];
      return SessionCompleted;
    }

    /** Looks at every section's attempt and both job rows before closing anything. */
    method HasPending(sections: seq<Uuid>) returns (pending: bool)
      ensures pending == Pending(attempts.Tables(), Session(0, SessionInProgress, 1, sections))
    {
      pending := false;
      for i := 0 to |sections|
        invariant pending <==> exists k ::
            0 <= k < i && sections[k] in attempts.attempts
            && (attempts.attempts[sections[k]].status.Processing? || attempts.Tables().Blocks(sections[k]))
      {
        var id := sections[i];
        if id in attempts.attempts
           && (attempts.attempts[id].status == Processing || (id in attempts.jobs && attempts.jobs[id].status != Ready)) {
          pending := true;
        }
      }
    }

    method Finish(id: Uuid) returns (o: SessionOutcome)
      modifies this`sessions, attempts
      ensures id !in old(sessions) ==>
                attempts.Tables() == old(attempts.Tables()) && sessions == old(sessions) && o == SessionNotFound
      ensures id in old(sessions) ==>
                var (d, s, o') := FinishTx(old(attempts.Tables()), old(sessions)[id]);
                attempts.Tables() == d && sessions == old(sessions)[id := s] && o == o'
    {
      if id !in sessions { return SessionNotFound; }
      assert sessions == sessions[id := sessions[id]];
      if sessions[id].status != SessionInProgress { return SessionCompleted; }
      var pending := HasPending(sessions[id].sections);
      if pending { return AssessmentPending; }
      sessions := sessions[id := sessions[id].(current := 5, status := SessionSubmitted)];
      attempts.AbandonAttempts(sessions[id].sections);
      return Moved;
    }

    method Abandon(id: Uuid) returns (o: SessionOutcome)
      modifies this`sessions, attempts
      ensures id !in old(sessions) ==>
                attempts.Tables() == old(attempts.Tables()) && sessions == old(sessions) && o == SessionCompleted
      ensures id in old(sessions) ==>
                var (d, s, o') := AbandonSessionTx(old(attempts.Tables()), old(sessions)[id]);
                attempts.Tables() == d && sessions == old(sessions)[id := s] && o == o'
    {
      if id !in sessions { return SessionCompleted; }
      assert sessions == sessions[id := sessions[id]];
      if sessions[id].status != SessionInProgress { return SessionCompleted; }
      sessions := sessions[id := sessions[id].(status := SessionAbandoned)];
      attempts.AbandonAttempts(sessions[id].sections);
      return Moved;
    }
  }
}
