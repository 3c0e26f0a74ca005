/** What every transaction of the attempt tables keeps, and how one state may evolve into another. */
module AssessmentInvariants {
  import opened Common
  import opened AssessmentRows

  /** An attempt and its job row move together. */
  ghost predicate Coupled(a: Attempt, job: Option<Job>)
  {
    match job
    case None => !a.status.Processing?
    case Some(j) =>
      a.skill.Assessed() &&
      match j.status
      case Queued => j.attempts <= 2 && (a.status.Processing? || a.status.Submitted?)
      case Running => 1 <= j.attempts <= 3 && (a.status.Processing? || a.status.Submitted?)
      case Ready => a.status.Submitted?
      case Failed => j.attempts == 3 && !a.status.Processing?
  }

  ghost function JobOf(d: Db, id: Uuid): Option<Job> { if id in d.jobs then Some(d.jobs[id]) else None }

  ghost predicate RowOk(d: Db, id: Uuid)
    requires id in d.attempts
  {
    && Coupled(d.attempts[id], JobOf(d, id))
    && (d.attempts[id].grade.Some? <==> d.attempts[id].status.Submitted?)
    && (id in d.evaluations <==> d.attempts[id].status.Submitted? && d.attempts[id].skill.Assessed())
  }

  ghost predicate DbOk(d: Db)
  {
    && d.jobs.Keys <= d.attempts.Keys
    && d.evaluations.Keys <= d.attempts.Keys
    && forall id | id in d.attempts :: RowOk(d, id)
  }

  /** Advance may have moved past this attempt: it is not open, or it is open again after a failed assessment. */
  ghost predicate Passed(d: Db, id: Uuid)
  {
    id in d.attempts && (d.attempts[id].status.InProgress? ==> d.JobIs(id, Failed))
  }

  /** Over, and no assessment left that a report would wait for. */
  ghost predicate Settled(d: Db, id: Uuid) { d.ClosedAt(id) && !d.Blocks(id) }

  ghost predicate SameAnswers(d: Db, d': Db, id: Uuid)
  {
    forall q: Uuid :: ((id, q) in d.answers <==> (id, q) in d'.answers)
                      && ((id, q) in d.answers && (id, q) in d'.answers ==> d.answers[(id, q)] == d'.answers[(id, q)])
  }

  /** Outcome, evaluation and answers of an attempt are the same in both states. */
  ghost predicate Frozen(d: Db, d': Db, id: Uuid)
    requires id in d.attempts
  {
    && id in d'.attempts && d'.attempts[id] == d.attempts[id]
    && (id in d.evaluations <==> id in d'.evaluations)
    && (id in d.evaluations && id in d'.evaluations ==> d.evaluations[id] == d'.evaluations[id])
    && SameAnswers(d, d', id)
  }

  ghost predicate RowEvolves(d: Db, d': Db, id: Uuid)
    requires id in d.attempts
  {
    && id in d'.attempts
    && d'.attempts[id].user == d.attempts[id].user && d'.attempts[id].skill == d.attempts[id].skill
    && (d.ClosedAt(id) ==> Frozen(d, d', id))
    && (Passed(d, id) ==> Passed(d', id))
    && (Settled(d, id) ==> Settled(d', id))
  }

  ghost predicate Evolves(d: Db, d': Db)
  {
    forall id | id in d.attempts :: RowEvolves(d, d', id)
  }

  lemma EvolvesReflexive(d: Db)
    ensures Evolves(d, d)
  {}

  lemma EvolvesTransitive(a: Db, b: Db, c: Db)
    requires Evolves(a, b) && Evolves(b, c)
    ensures Evolves(a, c)
  {
    forall id | id in a.attempts ensures RowEvolves(a, c, id) {
      assert RowEvolves(a, b, id) && RowEvolves(b, c, id);
    }
  }

  lemma {:induction false} UpsertOther(answers: Answers, id: Uuid, input: seq<AnswerInput>, key: (Uuid, Uuid))
    requires key.0 != id
    ensures key in Upsert(answers, id, input) <==> key in answers
    ensures key in answers ==> Upsert(answers, id, input)[key] == answers[key]
  {
    if input != [] {
      UpsertOther(answers, id, input[..|input| - 1], key);
    }
  }

  /** Storing answers of one attempt leaves the answers of every other attempt alone. */
  lemma UpsertKeepsOthers(d: Db, d': Db, id: Uuid, input: seq<AnswerInput>, other: Uuid)
    requires other != id && d'.answers == Upsert(d.answers, id, input)
    ensures SameAnswers(d, d', other)
  {
    forall q: Uuid
      ensures ((other, q) in d.answers <==> (other, q) in d'.answers)
      ensures (other, q) in d.answers && (other, q) in d'.answers ==> d.answers[(other, q)] == d'.answers[(other, q)]
    {
      UpsertOther(d.answers, id, input, (other, q));
    }
  }

  // ---- Conservation: completed tasks count submitted attempts. ----

  ghost function Total(p: Progress, skill: Skill): nat
    decreases |p|
  {
    if p == map[] then 0
    else
      var k :| k in p;
      (if k.1 == skill then p[k] else 0) + Total(p - {k}, skill)
  }

  /** The sum does not depend on the row taken first. */
  lemma {:induction false} TotalTake(p: Progress, skill: Skill, k: (Uuid, Skill))
    requires k in p
    ensures Total(p, skill) == (if k.1 == skill then p[k] else 0) + Total(p - {k}, skill)
    decreases |p|
  {
    var k0 :| k0 in p && Total(p, skill) == (if k0.1 == skill then p[k0] else 0) + Total(p - {k0}, skill);
    if k0 != k {
      TotalTake(p - {k0}, skill, k);
      TotalTake(p - {k}, skill, k0);
      assert p - {k0} - {k} == p - {k} - {k0};
    }
  }

  lemma TotalBump(p: Progress, user: Uuid, skill: Skill, counted: Skill)
    ensures var p' := p[(user, skill) := Completed(p, user, skill) + 1];
            Total(p', counted) == Total(p, counted) + (if skill == counted then 1 else 0)
  {
    var k := (user, skill);
    var p' := p[k := Completed(p, user, skill) + 1];
    TotalTake(p', counted, k);
    assert p' - {k} == p - {k};
    if k in p {
      TotalTake(p, counted, k);
    } else {
      assert p - {k} == p;
    }
  }

  ghost function SubmittedIds(d: Db, skill: Skill): set<Uuid>
  {
    set id | id in d.attempts && d.attempts[id].status.Submitted? && d.attempts[id].skill == skill
  }

  ghost predicate Balanced(d: Db)
  {
    forall skill: Skill :: Total(d.progress, skill) == |SubmittedIds(d, skill)|
  }

  /** Neither the counters nor the set of submitted attempts changes. */
  ghost predicate SameLedger(d: Db, d': Db)
  {
    && d'.progress == d.progress
    && forall skill: Skill :: SubmittedIds(d', skill) == SubmittedIds(d, skill)
  }

  /** Steps that submit nothing keep the books balanced. */
  lemma JobsOnlyBalance(d: Db, d': Db)
    requires d'.progress == d.progress && d'.attempts.Keys == d.attempts.Keys
    requires forall id | id in d.attempts ::
               d'.attempts[id].skill == d.attempts[id].skill
               && (d'.attempts[id].status.Submitted? <==> d.attempts[id].status.Submitted?)
    ensures Balanced(d) ==> Balanced(d')
  {
    forall skill: Skill ensures SubmittedIds(d', skill) == SubmittedIds(d, skill) {}
  }

  ghost predicate DbKeeps(d: Db, d': Db)
  {
    DbOk(d') && Evolves(d, d') && (Balanced(d) ==> Balanced(d'))
  }

  // ---- One lemma per transaction: the invariant is kept and every row evolves. ----

  lemma SaveAnswersKeeps(d: Db, id: Uuid, input: seq<AnswerInput>)
    requires DbOk(d)
    ensures var d' := SaveAnswersTx(d, id, input).0; DbKeeps(d, d')
  {
    var d' := SaveAnswersTx(d, id, input).0;
    if d' != d {
      forall x | x in d.attempts ensures RowOk(d', x) && RowEvolves(d, d', x) {
        assert RowOk(d, x);
        if x != id { UpsertKeepsOthers(d, d', id, input, x); }
      }
    }
    JobsOnlyBalance(d, d');
  }

  lemma QueueKeeps(d: Db, id: Uuid, input: seq<AnswerInput>, now: int)
    requires DbOk(d) && (id in d.attempts ==> d.attempts[id].skill.Assessed())
    ensures var d' := QueueTx(d, id, input, now).0; DbKeeps(d, d')
  {
    var d' := QueueTx(d, id, input, now).0;
    if d' != d {
      forall x | x in d.attempts ensures RowOk(d', x) && RowEvolves(d, d', x) {
        assert RowOk(d, x);
        if x != id { UpsertKeepsOthers(d, d', id, input, x); }
      }
    }
    JobsOnlyBalance(d, d');
  }

  /** The transactions that touch nothing but one job row. */
  lemma JobRowKeeps(d: Db, id: Uuid, j: Job)
    requires DbOk(d) && id in d.jobs
    requires Coupled(d.attempts[id], Some(j))
    requires d.jobs[id].status.Failed? && d.attempts[id].status.InProgress? ==> j.status.Failed?
    requires d.jobs[id].status.Ready? ==> j.status.Ready?
    ensures var d' := d.(jobs := d.jobs[id := j]); DbKeeps(d, d')
  {
    var d' := d.(jobs := d.jobs[id := j]);
    forall x | x in d.attempts ensures RowOk(d', x) && RowEvolves(d, d', x) {
      assert RowOk(d, x);
    }
    JobsOnlyBalance(d, d');
  }

  lemma ClaimKeeps(d: Db, id: Uuid, now: int)
    requires DbOk(d)
    ensures var d' := ClaimTx(d, id, now).0; DbKeeps(d, d')
  {
    if Claimable(d, id, now) {
      assert RowOk(d, id);
      var j := d.jobs[id].(status := Running, attempts := d.jobs[id].attempts + 1, updatedAt := now);
      assert ClaimTx(d, id, now).0 == d.(jobs := d.jobs[id := j]);
      JobRowKeeps(d, id, j);
    }
  }

  lemma RenewKeeps(d: Db, id: Uuid, now: int)
    requires DbOk(d)
    ensures var d' := RenewTx(d, id, now); DbKeeps(d, d')
  {
    if d.JobIs(id, Running) {
      assert RowOk(d, id);
      JobRowKeeps(d, id, d.jobs[id].(updatedAt := now));
    }
  }

  /** Completion has no guard of its own: it relies on the attempt being submitted already. */
  lemma CompleteKeeps(d: Db, id: Uuid, now: int)
    requires DbOk(d) && id in d.attempts && d.attempts[id].status.Submitted?
    ensures var d' := CompleteTx(d, id, now); DbKeeps(d, d')
  {
    if id in d.jobs {
      assert RowOk(d, id);
      JobRowKeeps(d, id, d.jobs[id].(status := Ready, updatedAt := now));
    }
  }

  lemma DeferKeeps(d: Db, id: Uuid, now: int)
    requires DbOk(d)
    ensures var d' := DeferTx(d, id, now); DbKeeps(d, d')
  {
    if d.JobIs(id, Running) {
      assert RowOk(d, id);
      JobRowKeeps(d, id, Refunded(d.jobs[id], now + DEFER_DELAY, now));
    }
  }

  /** A terminal failure hands the attempt back to the student in the same transaction. */
  lemma TerminalFailureKeeps(d: Db, id: Uuid, j: Job)
    requires DbOk(d) && id in d.jobs && d.attempts[id].status.Processing?
    requires j.status.Failed? && j.attempts == 3
    ensures var d' := d.(jobs := d.jobs[id := j], attempts := d.attempts[id := d.attempts[id].(status := InProgress)]);
            DbKeeps(d, d')
  {
    var d' := d.(jobs := d.jobs[id := j], attempts := d.attempts[id := d.attempts[id].(status := InProgress)]);
    forall x | x in d.attempts ensures RowOk(d', x) && RowEvolves(d, d', x) {
      assert RowOk(d, x);
    }
    JobsOnlyBalance(d, d');
  }

  lemma FailKeeps(d: Db, id: Uuid, now: int)
    requires DbOk(d)
    ensures var d' := FailTx(d, id, now); DbKeeps(d, d')
  {
    var d' := FailTx(d, id, now);
    if id in d.jobs { assert RowOk(d, id); }
    if !d.JobIs(id, Running) {
      assert d' == d;
    } else if d.jobs[id].attempts >= MAX_CLAIMS && d.attempts[id].status.Processing? {
      TerminalFailureKeeps(d, id, FailedRun(d.jobs[id], now));
    } else {
      JobRowKeeps(d, id, FailedRun(d.jobs[id], now));
    }
  }

  lemma RecoverKeeps(d: Db, skill: Skill, now: int)
    requires DbOk(d)
    ensures var d' := RecoverTx(d, skill, now); DbKeeps(d, d')
  {
    var d' := RecoverTx(d, skill, now);
    forall x | x in d.attempts ensures RowOk(d', x) && RowEvolves(d, d', x) {
      assert RowOk(d, x);
    }
    JobsOnlyBalance(d, d');
  }

  /** A failed assessment of an open attempt is put back into the queue, and the attempt with it. */
  lemma RequeueKeeps(d: Db, id: Uuid, now: int)
    requires DbOk(d) && d.JobIs(id, Failed) && d.attempts[id].status.InProgress?
    ensures var d' := d.(jobs := d.jobs[id := FreshJob(now)],
                         attempts := d.attempts[id := d.attempts[id].(status := Processing)]);
            DbKeeps(d, d')
  {
    var d' := d.(jobs := d.jobs[id := FreshJob(now)],
                 attempts := d.attempts[id := d.attempts[id].(status := Processing)]);
    forall x | x in d.attempts ensures RowOk(d', x) && RowEvolves(d, d', x) {
      assert RowOk(d, x);
    }
    JobsOnlyBalance(d, d');
  }

  lemma RetryKeeps(d: Db, id: Uuid, now: int)
    requires DbOk(d)
    ensures DbKeeps(d, RetryTx(d, id, now).0)
  {
    if RetryTx(d, id, now).1 == Done {
      RequeueKeeps(d, id, now);
    } else {
      EvolvesReflexive(d);
    }
  }

  lemma SubmitKeeps(d: Db, r: SubmitResult)
    requires DbOk(d)
    requires r.attempt in d.attempts ==> (r.evaluation.Some? <==> d.attempts[r.attempt].skill.Assessed())
    ensures var d' := SubmitTx(d, r).0; DbOk(d') && Evolves(d, d')
    ensures SubmitTx(d, r).1 != Conflict
  {
    var d' := SubmitTx(d, r).0;
    if r.attempt in d.attempts { assert RowOk(d, r.attempt); }
    if d' != d {
      forall x | x in d.attempts ensures RowOk(d', x) && RowEvolves(d, d', x) {
        assert RowOk(d, x);
        if x != r.attempt { UpsertKeepsOthers(d, d', r.attempt, r.answers, x); }
      }
    }
  }

  lemma AbandonKeeps(d: Db, ids: seq<Uuid>)
    requires DbOk(d)
    ensures var d' := AbandonTx(d, ids); DbOk(d') && Evolves(d, d')
  {
    var d' := AbandonTx(d, ids);
    forall x | x in d.attempts ensures RowOk(d', x) && RowEvolves(d, d', x) {
      assert RowOk(d, x);
    }
  }

  // ---- The one transaction that moves the books. ----

  lemma SubmitBalances(d: Db, r: SubmitResult)
    requires Balanced(d)
    requires r.attempt in d.attempts ==> r.skill == d.attempts[r.attempt].skill
    ensures Balanced(SubmitTx(d, r).0)
  {
    var (d', o) := SubmitTx(d, r);
    if o == Done {
      forall skill: Skill ensures Total(d'.progress, skill) == |SubmittedIds(d', skill)| {
        TotalBump(d.progress, r.user, r.skill, skill);
        if skill == r.skill {
          assert SubmittedIds(d', skill) == SubmittedIds(d, skill) + {r.attempt};
        } else {
          assert SubmittedIds(d', skill) == SubmittedIds(d, skill);
        }
      }
    }
  }
}
