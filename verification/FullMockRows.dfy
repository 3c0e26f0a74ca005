/** Full-mock sessions and the transactions that move them. A session owns four attempts, one per section. */
module FullMockRows {
  import opened Common
  import opened AssessmentRows

  datatype SessionStatus = SessionInProgress | SessionSubmitted | SessionAbandoned
  datatype Session = Session(user: Uuid, status: SessionStatus, current: nat, sections: seq<Uuid>)

  datatype SessionOutcome = Moved | SessionNotFound | SessionCompleted | AssessmentPending

  /** The guarded UPDATE of an advance: it takes effect only from the section before `next`. */
  function AdvanceTx(s: Session, next: nat): (Session, SessionOutcome)
  {
    if s.status.SessionInProgress? && s.current + 1 == next then (s.(current := next), Moved)
    else (s, SessionCompleted)
  }

  /** Some section still waits for an assessment, or its assessment failed. */
  predicate Pending(d: Db, s: Session)
  {
    exists id | id in s.sections :: id in d.attempts && (d.attempts[id].status.Processing? || d.Blocks(id))
  }

  function FinishTx(d: Db, s: Session): (Db, Session, SessionOutcome)
  {
    if !s.status.SessionInProgress? then (d, s, SessionCompleted)
    else if Pending(d, s) then (d, s, AssessmentPending)
    else (AbandonTx(d, s.sections), s.(current := 5, status := SessionSubmitted), Moved)
  }

  function AbandonSessionTx(d: Db, s: Session): (Db, Session, SessionOutcome)
  {
    if !s.status.SessionInProgress? then (d, s, SessionCompleted)
    else (AbandonTx(d, s.sections), s.(status := SessionAbandoned), Moved)
  }
}
