/**
 Rows and transactions of the attempt tables.

 The writing and the speaking job tables have the same columns and the same statements, and an attempt
 has a row in at most one of them, the one its skill selects. One map `jobs` therefore stands for both.
 Times are milliseconds.
 */
module AssessmentRows {
  import opened Common

  datatype Status = InProgress | Processing | Submitted | Abandoned {
    predicate Closed() { Submitted? || Abandoned? }
  }

  /** `Running` is the job status the tables spell PROCESSING. */
  datatype JobStatus = Queued | Running | Ready | Failed {
    predicate Live() { Queued? || Running? }
  }

  datatype Grade = Grade(score: int, maxScore: int)
  datatype Attempt = Attempt(user: Uuid, skill: Skill, status: Status, grade: Option<Grade>)
  datatype Job = Job(status: JobStatus, attempts: nat, nextAttemptAt: int, updatedAt: int)
  datatype AnswerInput = AnswerInput(question: Uuid, answer: string)
  datatype SubmitResult = SubmitResult(
    attempt: Uuid, user: Uuid, skill: Skill, answers: seq<AnswerInput>, grade: Grade, evaluation: Option<string>)

  type Answers = map<(Uuid, Uuid), string>
  type Progress = map<(Uuid, Skill), nat>

  datatype Db = Db(
    attempts: map<Uuid, Attempt>,
    jobs: map<Uuid, Job>,
    answers: Answers,
    evaluations: map<Uuid, string>,
    progress: Progress)
  {
    /** The attempt is over: nothing may change its outcome. */
    predicate ClosedAt(id: Uuid) { id in attempts && attempts[id].status.Closed() }

    predicate JobIs(id: Uuid, status: JobStatus) { id in jobs && jobs[id].status == status }

    /** What the mock's report waits for: a queued, running or failed assessment. */
    predicate Blocks(id: Uuid) { id in jobs && !jobs[id].status.Ready? }
  }

  datatype Outcome = Done | NotFound | AlreadySubmitted | RetryNotAllowed | Conflict

  const DEFER_DELAY := 3_000

  /** The answer table after storing `input` in order: a repeated question keeps its last answer. */
  function Upsert(answers: Answers, id: Uuid, input: seq<AnswerInput>): Answers
  {
    if input == [] then answers
    else
      var last := input[|input| - 1];
      Upsert(answers, id, input[..|input| - 1])[(id, last.question) := last.answer]
  }

  function FreshJob(now: int): Job { Job(Queued, 0, now, now) }

  function SaveAnswersTx(d: Db, id: Uuid, input: seq<AnswerInput>): (Db, Outcome)
  {
    if id !in d.attempts then (d, NotFound)
    else if !d.attempts[id].status.InProgress? then (d, AlreadySubmitted)
    else (d.(answers := Upsert(d.answers, id, input)), Done)
  }

  function QueueTx(d: Db, id: Uuid, input: seq<AnswerInput>, now: int): (Db, Outcome)
  {
    if id !in d.attempts then (d, NotFound)
    else if !d.attempts[id].status.InProgress? then (d, AlreadySubmitted)
    else
      (d.(answers := Upsert(d.answers, id, input),
          attempts := d.attempts[id := d.attempts[id].(status := Processing)],
          jobs := d.jobs[id := FreshJob(now)]), Done)
  }

  predicate Claimable(d: Db, id: Uuid, now: int)
  {
    d.JobIs(id, Queued) && d.jobs[id].attempts < MAX_CLAIMS && d.jobs[id].nextAttemptAt <= now
  }

  function ClaimTx(d: Db, id: Uuid, now: int): (Db, bool)
  {
    if Claimable(d, id, now) then
      var j := d.jobs[id];
      (d.(jobs := d.jobs[id := j.(status := Running, attempts := j.attempts + 1, updatedAt := now)]), true)
    else (d, false)
  }

  function RenewTx(d: Db, id: Uuid, now: int): Db
  {
    if d.JobIs(id, Running) then d.(jobs := d.jobs[id := d.jobs[id].(updatedAt := now)]) else d
  }

  function CompleteTx(d: Db, id: Uuid, now: int): Db
  {
    if id in d.jobs then d.(jobs := d.jobs[id := d.jobs[id].(status := Ready, updatedAt := now)]) else d
  }

  /** A failed run goes back to the queue with a back-off, or becomes terminal after the third claim. */
  function FailedRun(j: Job, now: int): Job
  {
    j.(status := if j.attempts >= MAX_CLAIMS then Failed else Queued,
       nextAttemptAt := now + (if j.attempts <= 1 then FIRST_BACKOFF else LATER_BACKOFF),
       updatedAt := now)
  }

  function FailTx(d: Db, id: Uuid, now: int): Db
  {
    var d1 := if d.JobIs(id, Running) then d.(jobs := d.jobs[id := FailedRun(d.jobs[id], now)]) else d;
    if id in d1.attempts && d1.attempts[id].status.Processing? && d1.JobIs(id, Failed) then
      d1.(attempts := d1.attempts[id := d1.attempts[id].(status := InProgress)])
    else d1
  }

  /** GREATEST(attempts - 1, 0): the claim is given back. */
  function Refunded(j: Job, next: int, now: int): Job
  {
    Job(Queued, if j.attempts == 0 then 0 else j.attempts - 1, next, now)
  }

  function DeferTx(d: Db, id: Uuid, now: int): Db
  {
    if d.JobIs(id, Running) then d.(jobs := d.jobs[id := Refunded(d.jobs[id], now + DEFER_DELAY, now)]) else d
  }

  /** The lease of a running job has lapsed: nobody renewed it for two minutes. */
  predicate Lapsed(d: Db, id: Uuid, skill: Skill, now: int)
  {
    d.JobIs(id, Running) && d.jobs[id].updatedAt < now - LEASE && id in d.attempts && d.attempts[id].skill == skill
  }

  function RecoverTx(d: Db, skill: Skill, now: int): Db
  {
    d.(jobs := map id | id in d.jobs ::
        if Lapsed(d, id, skill, now) then Refunded(d.jobs[id], now, now) else d.jobs[id])
  }

  function RetryTx(d: Db, id: Uuid, now: int): (Db, Outcome)
  {
    if id !in d.attempts then (d, NotFound)
    else if !d.attempts[id].skill.Assessed() then (d, RetryNotAllowed)
    else if !d.attempts[id].status.InProgress? then (d, RetryNotAllowed)
    else if !d.JobIs(id, Failed) then (d, RetryNotAllowed)
    else
      (d.(jobs := d.jobs[id := FreshJob(now)],
          attempts := d.attempts[id := d.attempts[id].(status := Processing)]), Done)
  }

  function Completed(p: Progress, user: Uuid, skill: Skill): nat
  {
    if (user, skill) in p then p[(user, skill)] else 0
  }

  /** The evaluation tables have the attempt as primary key: a second row rolls the transaction back. */
  function SubmitTx(d: Db, r: SubmitResult): (Db, Outcome)
  {
    if r.attempt !in d.attempts then (d, NotFound)
    else if d.attempts[r.attempt].status.Closed() then (d, AlreadySubmitted)
    else if r.evaluation.Some? && r.attempt in d.evaluations then (d, Conflict)
    else
      (d.(answers := Upsert(d.answers, r.attempt, r.answers),
          attempts := d.attempts[r.attempt := d.attempts[r.attempt].(status := Submitted, grade := Some(r.grade))],
          progress := d.progress[(r.user, r.skill) := Completed(d.progress, r.user, r.skill) + 1],
          evaluations := if r.evaluation.Some? then d.evaluations[r.attempt := r.evaluation.value] else d.evaluations), Done)
  }

  /** Closing attempts that are still in progress, as section expiry, finish, abandon and restart do. */
  function AbandonTx(d: Db, ids: seq<Uuid>): Db
  {
    d.(attempts := map id | id in d.attempts ::
        if id in ids && d.attempts[id].status.InProgress? then d.attempts[id].(status := Abandoned) else d.attempts[id])
  }
}
