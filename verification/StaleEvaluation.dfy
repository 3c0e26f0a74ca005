/**
 A run in which an evaluation is not of what the student queued last: a slow worker has read the first answer, others
 fail the job for good, the student changes the answer and queues again, and then the slow worker submits. Its text
 replaces the student's.
 */
module StaleEvaluation {
  import opened Common
  import opened AssessmentRows
  import opened EvaluationSources
  import EvaluationTheorems
  import A = AssessmentProtocol

  const SLOW := A.Evaluating(3, 0, Writing)
  const TASK := (3, 7)

  /** The one attempt, its answer, its job, the slow worker with its notes, and the worker 1. */
  ghost predicate Scene(w: World, answer: string, status: Status, job: Job, other: A.Worker)
  {
    && 3 in w.a.db.attempts && w.a.db.attempts[3] == Attempt(0, Writing, status, None)
    && 3 in w.a.db.jobs && w.a.db.jobs[3] == job && 3 !in w.a.db.evaluations
    && TASK in w.a.db.answers && w.a.db.answers[TASK] == answer
    && A.WorkerAt(w.a, 0) == SLOW && A.WorkerAt(w.a, 1) == other
    && 0 in w.notes && w.notes[0].attempt == 3 && w.notes[0].recordings == map[]
    && TASK in w.notes[0].answers && w.notes[0].answers[TASK] == "old"
  }

  lemma Then(es: seq<Event>, e: Event) returns (es': seq<Event>)
    ensures Run(START, es') == Apply(Run(START, es), e)
  {
    es' := es + [e];
    assert es'[..|es|] == es;
  }

  lemma Answering() returns (es: seq<Event>)
    ensures var w := Run(START, es);
            && w.a.now == 0 && A.WorkerAt(w.a, 0).Idle? && A.WorkerAt(w.a, 1).Idle?
            && 3 in w.a.db.attempts && w.a.db.attempts[3] == Attempt(0, Writing, Processing, None)
            && 3 in w.a.db.jobs && w.a.db.jobs[3] == Job(Queued, 0, 0, 0) && 3 !in w.a.db.evaluations
            && TASK in w.a.db.answers && w.a.db.answers[TASK] == "old"
  {
    es := Then([], Assess(A.StartPractice(3, 0, Writing)));
    assert Run(START, []) == START;
    assert Upsert(map[], 3, [AnswerInput(7, "old")]) == map[TASK := "old"] by {
      assert [AnswerInput(7, "old")][..0] == [];
    }
    es := Then(es, Assess(A.QueueAssessment(3, [AnswerInput(7, "old")])));
  }

  lemma SlowReads(es: seq<Event>) returns (es': seq<Event>)
    requires var w := Run(START, es); 3 in w.a.db.attempts && TASK in w.a.db.answers && A.WorkerAt(w.a, 0) == SLOW
    ensures var w, w' := Run(START, es), Run(START, es');
            && w'.a == w.a && 0 in w'.notes && w'.notes[0].attempt == 3 && w'.notes[0].recordings == map[]
            && TASK in w'.notes[0].answers && w'.notes[0].answers[TASK] == w.a.db.answers[TASK]
  {
    es' := Then(es, ListAnswers(0));
  }

  lemma SlowClaims() returns (es: seq<Event>)
    ensures Scene(Run(START, es), "old", Processing, Job(Running, 1, 0, 0), A.Idle) && Run(START, es).a.now == 0
  {
    es := Answering();
    es := Then(es, Assess(A.Claim(0, 3)));
    assert A.WorkerAt(Run(START, es).a, 0) == A.Claimed(3);
    es := Then(es, Assess(A.ReadAttempt(0, A.Proceed)));
    es := SlowReads(es);
  }

  lemma Wait(es: seq<Event>, elapsed: nat, answer: string, status: Status, job: Job, other: A.Worker) returns (es': seq<Event>)
    requires Scene(Run(START, es), answer, status, job, other)
    ensures Scene(Run(START, es'), answer, status, job, other) && Run(START, es').a.now == Run(START, es).a.now + elapsed
  {
    es' := Then(es, Assess(A.Tick(elapsed)));
  }

  lemma Lapse() returns (es: seq<Event>)
    ensures var w := Run(START, es); Scene(w, "old", Processing, Job(Queued, 0, w.a.now, w.a.now), A.Idle)
  {
    es := SlowClaims();
    es := Wait(es, LEASE + 1, "old", Processing, Job(Running, 1, 0, 0), A.Idle);
    es := Recovered(es, Job(Running, 1, 0, 0));
  }

  lemma Recovered(es: seq<Event>, job: Job) returns (es': seq<Event>)
    requires Scene(Run(START, es), "old", Processing, job, A.Idle) && job.status.Running? && job.attempts == 1
    requires job.updatedAt < Run(START, es).a.now - LEASE
    ensures var w := Run(START, es'); Scene(w, "old", Processing, Job(Queued, 0, w.a.now, w.a.now), A.Idle)
  {
    es' := Then(es, Assess(A.Recover(Writing)));
  }

  lemma OtherClaims(es: seq<Event>, job: Job) returns (es': seq<Event>)
    requires Scene(Run(START, es), "old", Processing, job, A.Idle)
    requires job.status.Queued? && job.attempts < 3 && job.nextAttemptAt <= Run(START, es).a.now
    ensures var w := Run(START, es');
            && w.a.now == Run(START, es).a.now
            && Scene(w, "old", Processing, Job(Running, job.attempts + 1, job.nextAttemptAt, w.a.now), A.Claimed(3))
  {
    es' := Then(es, Assess(A.Claim(1, 3)));
  }

  lemma OtherCannotRead(es: seq<Event>, job: Job) returns (es': seq<Event>)
    requires Scene(Run(START, es), "old", Processing, job, A.Claimed(3))
    ensures Run(START, es').a.now == Run(START, es).a.now && Scene(Run(START, es'), "old", Processing, job, A.Failing(3))
  {
    es' := Then(es, Assess(A.ReadAttempt(1, A.ReadFailed)));
  }

  lemma OtherFails(es: seq<Event>, job: Job) returns (es': seq<Event>)
    requires Scene(Run(START, es), "old", Processing, job, A.Failing(3)) && job.status.Running?
    ensures var w := Run(START, es'); var failed := FailedRun(job, w.a.now);
            Scene(w, "old", if failed.status.Failed? then InProgress else Processing, failed, A.Idle)
  {
    es' := Then(es, Assess(A.ReportFailure(1)));
  }

  /** Another worker claims the job once its back-off is over and reports a failure. */
  lemma FailedRound(es: seq<Event>, job: Job) returns (es': seq<Event>)
    requires Scene(Run(START, es), "old", Processing, job, A.Idle)
    requires job.status.Queued? && job.attempts < 3 && job.nextAttemptAt <= Run(START, es).a.now + LATER_BACKOFF
    ensures var w := Run(START, es');
            var failed := FailedRun(Job(Running, job.attempts + 1, job.nextAttemptAt, w.a.now), w.a.now);
            Scene(w, "old", if failed.status.Failed? then InProgress else Processing, failed, A.Idle)
  {
    es' := Wait(es, LATER_BACKOFF, "old", Processing, job, A.Idle);
    es' := OtherClaims(es', job);
    es' := OtherCannotRead(es', Run(START, es').a.db.jobs[3]);
    es' := OtherFails(es', Run(START, es').a.db.jobs[3]);
  }

  /** After three rounds the attempt is open again; the slow worker still has its notes. */
  lemma Reopened() returns (es: seq<Event>)
    ensures 3 in Run(START, es).a.db.jobs && Scene(Run(START, es), "old", InProgress, Run(START, es).a.db.jobs[3], A.Idle)
  {
    es := Lapse();
    es := FailedRound(es, Run(START, es).a.db.jobs[3]);
    es := FailedRound(es, Run(START, es).a.db.jobs[3]);
    es := FailedRound(es, Run(START, es).a.db.jobs[3]);
  }

  lemma QueuedAgain(es: seq<Event>, job: Job) returns (es': seq<Event>)
    requires Scene(Run(START, es), "old", InProgress, job, A.Idle)
    ensures var w := Run(START, es');
            && Scene(w, "new", Processing, FreshJob(w.a.now), A.Idle)
            && 3 in w.queued && TASK in w.queued[3] && w.queued[3][TASK] == "new"
  {
    var input := [AnswerInput(7, "new")];
    assert input[..0] == [];
    es' := Then(es, Assess(A.QueueAssessment(3, input)));
  }

  lemma SlowSubmits(es: seq<Event>, job: Job) returns (es': seq<Event>)
    requires Scene(Run(START, es), "new", Processing, job, A.Idle)
    ensures var w, w' := Run(START, es), Run(START, es');
            && w'.queued == w.queued && 3 in w'.made && w'.made[3] == Made(w.notes[0], [7])
  {
    var w := Run(START, es);
    assert Trim("old") == "old" by { assert !IsSpace("old"[0]) && !IsSpace("old"[2]); }
    assert TextOf(w.notes[0], 7) == Some("old");
    es' := Then(es, Submit(0, [7], Grade(60, 90), "evaluation", true));
  }

  /** The student queued the new text last; the old one is evaluated, and is what the student finds stored. */
  lemma OldTextIsEvaluated() returns (es: seq<Event>)
    ensures var w := Run(START, es);
            && 3 in w.a.db.attempts && w.a.db.attempts[3].status.Submitted?
            && 3 in w.queued && TASK in w.queued[3] && w.queued[3][TASK] == "new"
            && 3 in w.made && 7 in w.made[3].parts && TextOf(w.made[3].notes, 7) == Some("old")
            && TASK in w.a.db.answers && w.a.db.answers[TASK] == "old"
  {
    es := Reopened();
    es := QueuedAgain(es, Run(START, es).a.db.jobs[3]);
    assert Trim("old") == "old" by { assert !IsSpace("old"[0]) && !IsSpace("old"[2]); }
    es := SlowSubmits(es, Run(START, es).a.db.jobs[3]);
    EvaluationTheorems.EvaluatedIsStored(es, [], 3, 7);
    assert es + [] == es;
  }
}
