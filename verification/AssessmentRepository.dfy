/** The attempt repository, statement by statement, against the transactions of AssessmentRows. */
module AssessmentRepository {
  import opened Common
  import opened AssessmentRows

  ghost predicate Distinct(input: seq<AnswerInput>)
  {
    forall i, j | 0 <= i < j < |input| :: input[i].question != input[j].question
  }

  lemma UpsertAppend(answers: Answers, id: Uuid, input: seq<AnswerInput>, item: AnswerInput)
    ensures Upsert(answers, id, input + [item]) == Upsert(answers, id, input)[(id, item.question) := item.answer]
  {
    assert (input + [item])[..|input|] == input;
  }

  /** Overwriting the only entry of a question is the same as answering it again at the end. */
  lemma {:induction false} UpsertReplace(answers: Answers, id: Uuid, input: seq<AnswerInput>, i: nat, answer: string)
    requires i < |input| && Distinct(input)
    ensures Upsert(answers, id, input[i := input[i].(answer := answer)])
         == Upsert(answers, id, input)[(id, input[i].question) := answer]
  {
    var n := |input| - 1;
    var changed := input[i := input[i].(answer := answer)];
    if i == n {
      assert changed[..n] == input[..n];
    } else {
      assert changed[..n] == input[..n][i := input[..n][i].(answer := answer)];
      UpsertReplace(answers, id, input[..n], i, answer);
      assert input[i].question != input[n].question;
    }
  }

  /**
   One entry per question, the last answer winning. The upsert statement needs distinct rows, since
   ON CONFLICT may not touch one row twice; the stored table is the one the original list describes.
   */
  method Deduplicate(input: seq<AnswerInput>) returns (payload: seq<AnswerInput>)
    ensures Distinct(payload)
    ensures forall answers: Answers, id: Uuid :: Upsert(answers, id, payload) == Upsert(answers, id, input)
  {
    payload := [];
    var indices: map<Uuid, nat> := map[];
    for i := 0 to |input|
      invariant Distinct(payload)
      invariant forall k | 0 <= k < |payload| :: payload[k].question in indices
      invariant forall q | q in indices :: indices[q] < |payload| && payload[indices[q]].question == q
      invariant forall answers: Answers, id: Uuid :: Upsert(answers, id, payload) == Upsert(answers, id, input[..i])
    {
      var item := input[i];
      assert input[..i + 1] == input[..i] + [item];
      var next := payload;
      if item.question in indices {
        var k := indices[item.question];
        next := payload[k := payload[k].(answer := item.answer)];
        forall answers: Answers, id: Uuid ensures Upsert(answers, id, next) == Upsert(answers, id, input[..i + 1]) {
          UpsertReplace(answers, id, payload, k, item.answer);
          UpsertAppend(answers, id, input[..i], item);
        }
      } else {
        indices := indices[item.question := |payload|];
        next := payload + [item];
        forall answers: Answers, id: Uuid ensures Upsert(answers, id, next) == Upsert(answers, id, input[..i + 1]) {
          UpsertAppend(answers, id, payload, item);
          UpsertAppend(answers, id, input[..i], item);
        }
      }
      payload := next;
    }
    assert input[..|input|] == input;
  }

  class Repository {
    var attempts: map<Uuid, Attempt>
    var jobs: map<Uuid, Job>
    var answers: Answers
    var evaluations: map<Uuid, string>
    var progress: Progress

    ghost function Tables(): Db
      reads this
    {
      Db(attempts, jobs, answers, evaluations, progress)
    }

    constructor ()
      ensures Tables() == Db(map[], map[], map[], map[], map[])
    {
      attempts, jobs, answers, evaluations, progress := map[], map[], map[], map[], map[];
    }

    /** INSERT ... ON CONFLICT DO UPDATE, one statement per answer. */
    method StoreAnswers(id: Uuid, input: seq<AnswerInput>)
      modifies this`answers
      ensures answers == Upsert(old(answers), id, input)
    {
      for i := 0 to |input|
        invariant answers == Upsert(old(answers), id, input[..i])
      {
        assert input[..i + 1][..i] == input[..i];
        answers := answers[(id, input[i].question) := input[i].answer];
      }
      assert input[..|input|] == input;
    }

    method SaveAnswers(id: Uuid, input: seq<AnswerInput>) returns (o: Outcome)
      modifies this
      ensures (Tables(), o) == SaveAnswersTx(old(Tables()), id, input)
    {
      var payload := Deduplicate(input);
      if id !in attempts { return NotFound; }
      var status := attempts[id].status;
      if status == InProgress {
        StoreAnswers(id, payload);
      }
      if status != InProgress { return AlreadySubmitted; }
      return Done;
    }

    method QueueAssessment(id: Uuid, input: seq<AnswerInput>, now: int) returns (o: Outcome)
      modifies this
      ensures (Tables(), o) == QueueTx(old(Tables()), id, input, now)
    {
      if id !in attempts { return NotFound; }
      if attempts[id].status != InProgress { return AlreadySubmitted; }
      StoreAnswers(id, input);
      attempts := attempts[id := attempts[id].(status := Processing)];
      jobs := jobs[id := FreshJob(now)];
      return Done;
    }

    method ClaimAssessment(id: Uuid, now: int) returns (claimed: bool)
      modifies this`jobs
      ensures (Tables(), claimed) == ClaimTx(old(Tables()), id, now)
    {
      claimed := false;
      if id in jobs {
        var j := jobs[id];
        if j.status == Queued && j.attempts < MAX_CLAIMS && j.nextAttemptAt <= now {
          jobs := jobs[id := j.(status := Running, attempts := j.attempts + 1, updatedAt := now)];
          claimed := true;
        }
      }
    }

    method RenewAssessment(id: Uuid, now: int)
      modifies this`jobs
      ensures Tables() == RenewTx(old(Tables()), id, now)
    {
      if id in jobs && jobs[id].status == Running {
        jobs := jobs[id := jobs[id].(updatedAt := now)];
      }
    }

    method CompleteAssessment(id: Uuid, now: int)
      modifies this`jobs
      ensures Tables() == CompleteTx(old(Tables()), id, now)
    {
      if id in jobs {
        jobs := jobs[id := jobs[id].(status := Ready, updatedAt := now)];
      }
    }

    /** Two statements of one transaction: the second reads the job row the first has just written. */
    method FailAssessment(id: Uuid, now: int)
      modifies this
      ensures Tables() == FailTx(old(Tables()), id, now)
    {
      if id in jobs && jobs[id].status == Running {
        var j := jobs[id];
        var backoff := if j.attempts <= 1 then FIRST_BACKOFF else LATER_BACKOFF;
        var status := if j.attempts >= MAX_CLAIMS then Failed else Queued;
        jobs := jobs[id := Job(status, j.attempts, now + backoff, now)];
      }
      if id in attempts && attempts[id].status == Processing && id in jobs && jobs[id].status == Failed {
        attempts := attempts[id := attempts[id].(status := InProgress)];
      }
    }

    method DeferAssessment(id: Uuid, now: int)
      modifies this`jobs
      ensures Tables() == DeferTx(old(Tables()), id, now)
    {
      if id in jobs && jobs[id].status == Running {
        jobs := jobs[id := Refunded(jobs[id], now + DEFER_DELAY, now)];
      }
    }

    /** One UPDATE over every lapsed lease of one job table. */
    method RecoverJobs(skill: Skill, now: int)
      modifies this`jobs
      ensures Tables() == RecoverTx(old(Tables()), skill, now)
    {
      var pending := jobs.Keys;
      while pending != {}
        invariant pending <= old(jobs.Keys)
        invariant jobs.Keys == old(jobs.Keys)
        invariant forall id | id in jobs ::
            jobs[id] == if id !in pending && Lapsed(old(Tables()), id, skill, now)
                        then Refunded(old(jobs)[id], now, now) else old(jobs)[id]
        decreases pending
      {
        var id :| id in pending;
        pending := pending - {id};
        var j := jobs[id];
        if j.status == Running && j.updatedAt < now - LEASE && id in attempts && attempts[id].skill == skill {
          jobs := jobs[id := Refunded(j, now, now)];
        }
      }
      assert jobs == RecoverTx(old(Tables()), skill, now).jobs;
    }

    method RetryAssessment(id: Uuid, skill: Skill, now: int) returns (o: Outcome)
      requires id in attempts ==> skill == attempts[id].skill
      modifies this
      ensures id in old(attempts) ==> (Tables(), o) == RetryTx(old(Tables()), id, now)
      ensures id !in old(attempts) ==> Tables() == old(Tables()) && o in {NotFound, RetryNotAllowed}
    {
      if skill != Writing && skill != Speaking { return RetryNotAllowed; }
      if id !in attempts { return NotFound; }
      if attempts[id].status != InProgress { return RetryNotAllowed; }
      if id !in jobs || jobs[id].status != Failed { return RetryNotAllowed; }
      jobs := jobs[id := FreshJob(now)];
      attempts := attempts[id := attempts[id].(status := Processing)];
      return Done;
    }

    /** A conflict on the evaluation table rolls every earlier statement back. */
    method Submit(r: SubmitResult) returns (o: Outcome)
      modifies this
      ensures (Tables(), o) == SubmitTx(old(Tables()), r)
    {
      if r.attempt !in attempts { return NotFound; }
      var status := attempts[r.attempt].status;
      if status != InProgress && status != Processing { return AlreadySubmitted; }
      var answers0, attempts0, progress0 := answers, attempts, progress;
      StoreAnswers(r.attempt, r.answers);
      attempts := attempts[r.attempt := attempts[r.attempt].(status := Submitted, grade := Some(r.grade))];
      var done := Completed(progress, r.user, r.skill);
      progress := progress[(r.user, r.skill) := done + 1];
      if r.evaluation.Some? {
        if r.attempt in evaluations {
          answers, attempts, progress := answers0, attempts0, progress0;
          return Conflict;
        }
        evaluations := evaluations[r.attempt := r.evaluation.value];
      }
      return Done;
    }

    /** Closes the attempts of `ids` that are still in progress. */
    method AbandonAttempts(ids: seq<Uuid>)
      modifies this`attempts
      ensures Tables() == AbandonTx(old(Tables()), ids)
    {
      for i := 0 to |ids|
        invariant Tables() == AbandonTx(old(Tables()), ids[..i])
      {
        assert ids[..i + 1] == ids[..i] + [ids[i]];
        var id := ids[i];
        if id in attempts && attempts[id].status == InProgress {
          attempts := attempts[id := attempts[id].(status := Abandoned)];
        }
        assert attempts == AbandonTx(old(Tables()), ids[..i + 1]).attempts;
      }
      assert ids[..|ids|] == ids;
    }
  }
}
