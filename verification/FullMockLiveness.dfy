/**
 Which mocks can still be finished.

 Finish waits for every section whose job is queued, running or failed, also when the section's attempt is
 closed. A job that failed terminally while its attempt is closed can no longer be retried, so unless a
 worker is about to complete it the mock is blocked for good. This module proves that such sections are the
 only obstacle, that they are reachable, and that they never go away.
 */
module FullMockLiveness {
  import opened Common
  import opened AssessmentRows
  import opened AssessmentInvariants
  import opened FullMockRows
  import opened AssessmentProtocol
  import AssessmentTheorems

  /** This worker's next calls may still complete the job of `id`. */
  predicate Attends(k: Worker, id: Uuid) { k == Claimed(id) || k == Completing(id) }

  /** The job failed for good, the attempt is closed, and no worker will complete the job. */
  ghost predicate Stuck(w: World, id: Uuid)
  {
    && w.db.JobIs(id, Failed) && w.db.ClosedAt(id)
    && (w.db.attempts[id].status.Submitted? ==> forall n | n in w.workers :: !Attends(w.workers[n], id))
  }

  // ---- A stuck section blocks its mock for ever. ----

  lemma WorkerLeavesRow(w: World, e: Event, id: Uuid)
    requires IsWorkerEvent(e) && WorkerOk(w.db, WorkerAt(w, e.worker)) && Stuck(w, id)
    ensures var d := WorkerStep(w, e).db; d.JobIs(id, Failed) && d.ClosedAt(id)
    ensures WorkerStep(w, e).db.attempts[id] == w.db.attempts[id]
  {}

  lemma WorkerStaysAway(w: World, e: Event, id: Uuid)
    requires IsWorkerEvent(e) && WorkerOk(w.db, WorkerAt(w, e.worker)) && Stuck(w, id)
    requires w.db.attempts[id].status.Submitted? && !Attends(WorkerAt(w, e.worker), id)
    ensures !Attends(WorkerAt(WorkerStep(w, e), e.worker), id)
  {}

  lemma WorkerLeavesStuck(w: World, e: Event, id: Uuid)
    requires IsWorkerEvent(e) && WorkerOk(w.db, WorkerAt(w, e.worker)) && Stuck(w, id)
    ensures Stuck(WorkerStep(w, e), id)
  {
    WorkerLeavesRow(w, e, id);
    if w.db.attempts[id].status.Submitted? {
      var k, k' := WorkerAt(w, e.worker), WorkerAt(WorkerStep(w, e), e.worker);
      assert !Attends(k, id);
      WorkerStaysAway(w, e, id);
      assert forall n | n in WorkerStep(w, e).workers && n != e.worker :: n in w.workers;
    }
  }

  lemma TabLeavesStuck(w: World, e: Event, id: Uuid)
    requires Stuck(w, id) && IsTabEvent(e)
    ensures Stuck(TabStep(w, e), id)
  {}

  lemma OtherLeavesStuck(w: World, e: Event, id: Uuid)
    requires Stuck(w, id) && !IsTabEvent(e) && !IsWorkerEvent(e)
    ensures Stuck(Apply(w, e), id)
  {}

  lemma WorkerIsOk(w: World, n: nat)
    requires WorldOk(w)
    ensures WorkerOk(w.db, WorkerAt(w, n))
  {}

  lemma StepLeavesStuck(w: World, e: Event, id: Uuid)
    requires WorldOk(w) && Stuck(w, id)
    ensures Stuck(Apply(w, e), id)
  {
    if IsWorkerEvent(e) {
      WorkerIsOk(w, e.worker);
      WorkerLeavesStuck(w, e, id);
    } else if IsTabEvent(e) {
      TabLeavesStuck(w, e, id);
    } else {
      OtherLeavesStuck(w, e, id);
    }
  }

  ghost predicate Unfinished(w: World, sid: Uuid) { sid in w.sessions && !w.sessions[sid].status.SessionSubmitted? }

  lemma WorkerLeavesSessions(w: World, e: Event)
    requires IsWorkerEvent(e)
    ensures Apply(w, e).sessions == w.sessions
  {}

  lemma StepLeavesUnfinished(w: World, e: Event, sid: Uuid)
    requires Unfinished(w, sid) && Pending(w.db, w.sessions[sid])
    ensures Unfinished(Apply(w, e), sid)
  {
    if IsWorkerEvent(e) {
      WorkerLeavesSessions(w, e);
    } else if IsTabEvent(e) {
      assert Unfinished(TabStep(w, e), sid);
    }
  }

  lemma {:induction false} StuckNeverFinishes(w: World, es: seq<Event>, sid: Uuid, id: Uuid)
    requires WorldOk(w) && Stuck(w, id)
    requires Unfinished(w, sid) && id in w.sessions[sid].sections
    ensures Stuck(Run(w, es), id) && Unfinished(Run(w, es), sid)
  {
    if es != [] {
      var before, e := es[..|es| - 1], es[|es| - 1];
      StuckNeverFinishes(w, before, sid, id);
      RunKeeps(w, before);
      AssessmentTheorems.SessionRun(w, before, sid);
      StepLeavesStuck(Run(w, before), e, id);
      StepLeavesUnfinished(Run(w, before), e, sid);
    }
  }

  // ---- Every other section can be brought to rest without disturbing the rest of the mock. ----

  /** Finish does not wait for this attempt. */
  predicate Quiet(d: Db, id: Uuid) { id in d.attempts && !d.attempts[id].status.Processing? && !d.Blocks(id) }

  ghost predicate Undisturbed(w: World, w': World, x: Uuid)
  {
    && (x in w.db.attempts <==> x in w'.db.attempts)
    && (x in w.db.attempts && x in w'.db.attempts ==> w'.db.attempts[x] == w.db.attempts[x])
    && (x in w.db.jobs <==> x in w'.db.jobs)
    && (w.db.JobIs(x, Ready) <==> w'.db.JobIs(x, Ready))
    && (w.db.JobIs(x, Failed) <==> w'.db.JobIs(x, Failed))
    && forall n: nat :: Attends(WorkerAt(w, n), x) <==> Attends(WorkerAt(w', n), x)
  }

  /** Only the attempt `id` has moved on. */
  ghost predicate Local(w: World, w': World, id: Uuid)
  {
    WorldOk(w') && w'.sessions == w.sessions && forall x: Uuid | x != id :: Undisturbed(w, w', x)
  }

  lemma LocalTransitive(a: World, b: World, c: World, id: Uuid)
    requires Local(a, b, id) && Local(b, c, id)
    ensures Local(a, c, id)
  {
    forall x: Uuid | x != id ensures Undisturbed(a, c, x) {
      assert Undisturbed(a, b, x) && Undisturbed(b, c, x);
    }
  }

  lemma RunAppend(w: World, es: seq<Event>, e: Event)
    ensures Run(w, es + [e]) == Apply(Run(w, es), e)
  {
    assert (es + [e])[..|es|] == es;
  }

  lemma {:induction false} RunConcat(w: World, a: seq<Event>, b: seq<Event>)
    ensures Run(w, a + b) == Run(Run(w, a), b)
  {
    if b == [] {
      assert a + b == a;
    } else {
      assert a + b == (a + b[..|b| - 1]) + [b[|b| - 1]];
      RunAppend(w, a + b[..|b| - 1], b[|b| - 1]);
      RunConcat(w, a, b[..|b| - 1]);
    }
  }

  ghost predicate ConcernsOnly(w: World, e: Event, id: Uuid)
  {
    match e
    case Tick(_) => true
    case Recover(_) => true
    case RetryAssessment(x) => x == id
    case Claim(_, x) => x == id
    case ReadAttempt(n, _) => WorkerAt(w, n) == Claimed(id)
    case SubmitEvaluation(n, _, _, _, _) => WorkerAt(w, n).Evaluating? && WorkerAt(w, n).id == id
    case Complete(n) => WorkerAt(w, n) == Completing(id)
    case _ => false
  }

  lemma WorkerUndisturbing(w: World, e: Event, id: Uuid, x: Uuid)
    requires IsWorkerEvent(e) && ConcernsOnly(w, e, id) && x != id
    ensures Undisturbed(w, WorkerStep(w, e), x) && WorkerStep(w, e).sessions == w.sessions
  {}

  lemma RowUndisturbed(w: World, e: Event, id: Uuid, x: Uuid)
    requires ConcernsOnly(w, e, id) && x != id
    ensures Undisturbed(w, Apply(w, e), x) && Apply(w, e).sessions == w.sessions
  {
    if IsWorkerEvent(e) { WorkerUndisturbing(w, e, id, x); }
  }

  lemma LocalStep(w: World, e: Event, id: Uuid)
    requires WorldOk(w) && ConcernsOnly(w, e, id)
    ensures Local(w, Apply(w, e), id)
  {
    StepKeeps(w, e);
    RowUndisturbed(w, e, id, id + 1);
    forall x: Uuid | x != id ensures Undisturbed(w, Apply(w, e), x) {
      RowUndisturbed(w, e, id, x);
    }
  }

  /** A worker nobody has started yet. */
  lemma {:induction false} FreshWorker(workers: map<nat, Worker>) returns (n: nat)
    ensures n !in workers && forall m | m in workers :: m < n
    decreases |workers|
  {
    if workers == map[] {
      n := 0;
    } else {
      var k :| k in workers;
      var rest := workers - {k};
      n := FreshWorker(rest);
      if k >= n { n := k + 1; }
      forall m | m in workers ensures m < n {
        if m != k { assert m in rest; }
      }
    }
  }

  /** Extends a run by one step that concerns only `id`. */
  lemma Extend(w: World, es: seq<Event>, e: Event, id: Uuid) returns (es': seq<Event>)
    requires WorldOk(w) && Local(w, Run(w, es), id) && ConcernsOnly(Run(w, es), e, id)
    ensures Run(w, es') == Apply(Run(w, es), e) && Local(w, Run(w, es'), id)
  {
    es' := es + [e];
    RunAppend(w, es, e);
    LocalStep(Run(w, es), e, id);
    LocalTransitive(w, Run(w, es), Run(w, es'), id);
  }

  /** A worker that has submitted, or seen the submission, completes the job. */
  lemma CompleteRun(w: World, es: seq<Event>, n: nat, id: Uuid) returns (es': seq<Event>)
    requires WorldOk(w) && Local(w, Run(w, es), id) && WorkerAt(Run(w, es), n) == Completing(id)
    ensures Local(w, Run(w, es'), id) && Quiet(Run(w, es').db, id) && Run(w, es').db.ClosedAt(id)
  {
    assert WorkerOk(Run(w, es).db, Completing(id));
    es' := Extend(w, es, Complete(n), id);
  }

  /** A worker that has claimed the job reads the attempt, submits if nobody has, and completes. */
  lemma SettleClaimed(w: World, es: seq<Event>, n: nat, id: Uuid) returns (es': seq<Event>)
    requires WorldOk(w) && Local(w, Run(w, es), id) && WorkerAt(Run(w, es), n) == Claimed(id)
    requires id in Run(w, es).db.attempts && !Run(w, es).db.attempts[id].status.Abandoned?
    ensures Local(w, Run(w, es'), id) && Quiet(Run(w, es').db, id) && Run(w, es').db.ClosedAt(id)
  {
    es' := Extend(w, es, ReadAttempt(n, Proceed), id);
    var w1 := Run(w, es');
    if !w1.db.attempts[id].status.Submitted? {
      es' := SubmitRun(w, es', n, id);
    }
    es' := CompleteRun(w, es', n, id);
  }

  lemma SubmitRun(w: World, es: seq<Event>, n: nat, id: Uuid) returns (es': seq<Event>)
    requires WorldOk(w) && Local(w, Run(w, es), id)
    requires WorkerAt(Run(w, es), n).Evaluating? && WorkerAt(Run(w, es), n).id == id
    requires id in Run(w, es).db.attempts && !Run(w, es).db.ClosedAt(id)
    ensures Local(w, Run(w, es'), id) && WorkerAt(Run(w, es'), n) == Completing(id)
  {
    assert RowOk(Run(w, es).db, id);
    es' := Extend(w, es, SubmitEvaluation(n, [], Grade(0, 90), "", true), id);
  }

  lemma ClaimTakes(w: World, n: nat, id: Uuid)
    requires n !in w.workers && Claimable(w.db, id, w.now)
    ensures var w' := Apply(w, Claim(n, id)); WorkerAt(w', n) == Claimed(id) && w'.db.attempts == w.db.attempts
  {}

  /** A worker nobody has started yet can claim a queued job once its back-off is over. */
  lemma ClaimQueued(w: World, n: nat, id: Uuid) returns (es: seq<Event>)
    requires WorldOk(w) && w.db.JobIs(id, Queued) && n !in w.workers
    ensures Local(w, Run(w, es), id) && WorkerAt(Run(w, es), n) == Claimed(id)
    ensures Run(w, es).db.attempts == w.db.attempts
  {
    assert RowOk(w.db, id);
    var wait := if w.db.jobs[id].nextAttemptAt > w.now then w.db.jobs[id].nextAttemptAt - w.now else 0;
    es := Extend(w, [], Tick(wait), id);
    ghost var w1 := Run(w, es);
    assert w1.db == w.db && w1.workers == w.workers && w1.now >= w.db.jobs[id].nextAttemptAt;
    ClaimTakes(w1, n, id);
    es := Extend(w, es, Claim(n, id), id);
  }

  lemma SettleQueued(w: World, id: Uuid) returns (es: seq<Event>)
    requires WorldOk(w) && w.db.JobIs(id, Queued)
    ensures Local(w, Run(w, es), id) && Quiet(Run(w, es).db, id) && Run(w, es).db.ClosedAt(id)
  {
    var n := FreshWorker(w.workers);
    assert RowOk(w.db, id);
    es := ClaimQueued(w, n, id);
    es := SettleClaimed(w, es, n, id);
  }

  lemma SettleFrom(w: World, es: seq<Event>, id: Uuid) returns (es': seq<Event>)
    requires WorldOk(w) && Local(w, Run(w, es), id) && Run(w, es).db.JobIs(id, Queued)
    ensures Local(w, Run(w, es'), id) && Quiet(Run(w, es').db, id) && Run(w, es').db.ClosedAt(id)
  {
    var rest := SettleQueued(Run(w, es), id);
    es' := es + rest;
    RunConcat(w, es, rest);
    LocalTransitive(w, Run(w, es), Run(w, es'), id);
  }

  lemma LapsedIsQueued(d: Db, id: Uuid, skill: Skill, now: int)
    requires Lapsed(d, id, skill, now)
    ensures RecoverTx(d, skill, now).JobIs(id, Queued)
  {
  }

  lemma LeaseRunsOut(w: World, id: Uuid)
    requires id in w.db.attempts && w.db.JobIs(id, Running) && w.now > w.db.jobs[id].updatedAt + LEASE
    ensures Apply(w, Recover(w.db.attempts[id].skill)).db.JobIs(id, Queued)
  {
    LapsedIsQueued(w.db, id, w.db.attempts[id].skill, w.now);
  }

  lemma SettleRunning(w: World, id: Uuid) returns (es: seq<Event>)
    requires WorldOk(w) && w.db.JobIs(id, Running)
    ensures Local(w, Run(w, es), id) && Quiet(Run(w, es).db, id) && Run(w, es).db.ClosedAt(id)
  {
    assert RowOk(w.db, id);
    var due := w.db.jobs[id].updatedAt + LEASE + 1;
    es := Extend(w, [], Tick(if due > w.now then due - w.now else 0), id);
    assert Run(w, es).db == w.db;
    LeaseRunsOut(Run(w, es), id);
    es := Extend(w, es, Recover(w.db.attempts[id].skill), id);
    es := SettleFrom(w, es, id);
  }

  /** A worker that still attends to a failed job of a submitted attempt completes it. */
  lemma SettleAttended(w: World, id: Uuid) returns (es: seq<Event>)
    requires WorldOk(w) && id in w.db.attempts && w.db.attempts[id].status.Submitted?
    requires exists n :: n in w.workers && Attends(w.workers[n], id)
    ensures Local(w, Run(w, es), id) && Quiet(Run(w, es).db, id) && Run(w, es).db.ClosedAt(id)
  {
    var n :| n in w.workers && Attends(w.workers[n], id);
    es := [];
    if w.workers[n].Claimed? {
      es := Extend(w, es, ReadAttempt(n, Proceed), id);
    }
    es := CompleteRun(w, es, n, id);
  }

  /** Every attempt that is not stuck can be brought to a state Finish does not wait for. */
  lemma Settle(w: World, id: Uuid) returns (es: seq<Event>)
    requires WorldOk(w) && id in w.db.attempts && !Stuck(w, id)
    ensures Local(w, Run(w, es), id) && Quiet(Run(w, es).db, id)
    ensures w.db.attempts[id].status.Processing? ==> Run(w, es).db.ClosedAt(id)
  {
    assert RowOk(w.db, id);
    if !w.db.Blocks(id) {
      es := [];
    } else if w.db.JobIs(id, Queued) {
      es := SettleQueued(w, id);
    } else if w.db.JobIs(id, Running) {
      es := SettleRunning(w, id);
    } else if w.db.attempts[id].status.InProgress? {
      es := Extend(w, [], RetryAssessment(id), id);
      es := SettleFrom(w, es, id);
    } else {
      es := SettleAttended(w, id);
    }
  }

  /** No student is stranded: from every reachable state a processing attempt can still get its result. */
  lemma NobodyStranded(es: seq<Event>, id: Uuid) returns (later: seq<Event>)
    requires id in Run(START, es).db.attempts && Run(START, es).db.attempts[id].status.Processing?
    ensures Run(Run(START, es), later).db.ClosedAt(id)
  {
    AssessmentTheorems.StartKeeps(es);
    later := Settle(Run(START, es), id);
  }

  // ---- The whole mock. ----

  ghost predicate CanFinish(w: World, sid: Uuid)
  {
    exists es :: sid in Run(w, es).sessions && Run(w, es).sessions[sid].status.SessionSubmitted?
  }

  /** Settles the sections one after the other; a settled section stays quiet while the next ones move. */
  lemma {:induction false} SettleSections(w: World, sid: Uuid, k: nat) returns (es: seq<Event>)
    requires WorldOk(w) && sid in w.sessions && k <= |w.sessions[sid].sections|
    requires forall id | id in w.sessions[sid].sections :: !Stuck(w, id)
    ensures WorldOk(Run(w, es)) && Run(w, es).sessions == w.sessions
    ensures forall i | 0 <= i < k :: Quiet(Run(w, es).db, w.sessions[sid].sections[i])
    ensures forall id | id in w.sessions[sid].sections :: !Stuck(Run(w, es), id)
  {
    if k == 0 {
      es := [];
    } else {
      var sections := w.sessions[sid].sections;
      var first := SettleSections(w, sid, k - 1);
      var w1 := Run(w, first);
      var id := sections[k - 1];
      assert SessionOk(w1.db, w1.sessions[sid]);
      var rest := Settle(w1, id);
      es := first + rest;
      RunConcat(w, first, rest);
      OneMoreSettled(w1, Run(w, es), sections, k);
    }
  }

  lemma OneMoreSettled(w: World, w': World, sections: seq<Uuid>, k: nat)
    requires 0 < k <= |sections| && Local(w, w', sections[k - 1]) && Quiet(w'.db, sections[k - 1])
    requires (forall i | 0 <= i < k - 1 :: Quiet(w.db, sections[i])) && forall id | id in sections :: !Stuck(w, id)
    ensures forall i | 0 <= i < k :: Quiet(w'.db, sections[i])
    ensures forall id | id in sections :: !Stuck(w', id)
  {
    var id := sections[k - 1];
    forall x | x in sections ensures !Stuck(w', x) {
      if x != id { StaysUnstuck(w, w', x); }
    }
    forall i | 0 <= i < k ensures Quiet(w'.db, sections[i]) {
      if sections[i] != id { assert Undisturbed(w, w', sections[i]); }
    }
  }

  lemma StaysUnstuck(w: World, w': World, x: Uuid)
    requires Undisturbed(w, w', x) && !Stuck(w, x)
    ensures !Stuck(w', x)
  {
    if w'.db.JobIs(x, Failed) && w'.db.ClosedAt(x) {
      var n :| n in w.workers && Attends(w.workers[n], x);
      assert Attends(WorkerAt(w, n), x);
      assert Attends(WorkerAt(w', n), x);
      assert n in w'.workers;
    }
  }

  /** A mock in progress can still be finished if and only if none of its sections is stuck. */
  lemma FinishableIffNoneStuck(es: seq<Event>, sid: Uuid)
    requires sid in Run(START, es).sessions && Run(START, es).sessions[sid].status.SessionInProgress?
    ensures CanFinish(Run(START, es), sid)
            <==> forall id | id in Run(START, es).sessions[sid].sections :: !Stuck(Run(START, es), id)
  {
    var w := Run(START, es);
    AssessmentTheorems.StartKeeps(es);
    var sections := w.sessions[sid].sections;
    if id :| id in sections && Stuck(w, id) {
      forall later ensures !(sid in Run(w, later).sessions && Run(w, later).sessions[sid].status.SessionSubmitted?) {
        StuckNeverFinishes(w, later, sid, id);
      }
    } else {
      var settled := SettleSections(w, sid, |sections|);
      var w1 := Run(w, settled);
      RunAppend(w, settled, FinishSession(sid));
      forall id | id in sections ensures Quiet(w1.db, id) {
        var i :| 0 <= i < |sections| && sections[i] == id;
      }
      assert !Pending(w1.db, w1.sessions[sid]);
      assert Run(w, settled + [FinishSession(sid)]).sessions[sid].status.SessionSubmitted?;
    }
  }

  // ---- A stuck mock is reachable. ----

  /** The mock 0 of user 0, with its writing attempt 3, its writing job and the two workers 0 and 1. */
  ghost predicate Scene(w: World, status: Status, job: Job, slow: Worker, other: Worker)
  {
    && 0 in w.sessions && w.sessions[0] == Session(0, SessionInProgress, 1, [1, 2, 3, 4])
    && 3 in w.db.attempts && w.db.attempts[3].user == 0 && w.db.attempts[3].skill.Writing?
    && w.db.attempts[3].status == status && 3 in w.db.jobs && w.db.jobs[3] == job && 3 !in w.db.evaluations
    && w.workers == map[0 := slow, 1 := other]
  }

  lemma Then(es: seq<Event>, e: Event) returns (es': seq<Event>)
    ensures Run(START, es') == Apply(Run(START, es), e)
  {
    es' := es + [e];
    RunAppend(START, es, e);
  }

  lemma Opening() returns (es: seq<Event>)
    ensures Scene(Run(START, es), Processing, Job(Queued, 0, 0, 0), Idle, Idle) && Run(START, es).now == 0
  {
    var w1 := StartSessionStep(START, 0, 0, [1, 2, 3, 4]);
    assert FreshSections(START, [1, 2, 3, 4]);
    assert w1.db.attempts[3] == NewAttempt(0, Writing);
    es := Then([], StartSession(0, 0, [1, 2, 3, 4]));
    assert Run(START, []) == START;
    assert Run(START, es) == w1;
    es := Then(es, QueueAssessment(3, []));
    assert Run(START, es).workers == map[];
    es := WorkersArrive(es);
  }

  lemma WorkersArrive(es: seq<Event>) returns (es': seq<Event>)
    requires Run(START, es).workers == map[]
    ensures Run(START, es') == Run(START, es).(workers := map[0 := Idle, 1 := Idle])
  {
    es' := Then(es, Crash(0));
    es' := Then(es', Crash(1));
  }

  lemma Wait(es: seq<Event>, elapsed: nat, status: Status, job: Job, slow: Worker, other: Worker) returns (es': seq<Event>)
    requires Scene(Run(START, es), status, job, slow, other)
    ensures Scene(Run(START, es'), status, job, slow, other) && Run(START, es').now == Run(START, es).now + elapsed
  {
    es' := Then(es, Tick(elapsed));
  }

  lemma SlowClaims(es: seq<Event>, job: Job) returns (es': seq<Event>)
    requires Scene(Run(START, es), Processing, job, Idle, Idle)
    requires job.status.Queued? && job.attempts < 3 && job.nextAttemptAt <= Run(START, es).now
    ensures Run(START, es').now == Run(START, es).now
    ensures var w := Run(START, es');
            Scene(w, Processing, Job(Running, job.attempts + 1, job.nextAttemptAt, w.now), Evaluating(3, 0, Writing), Idle)
  {
    es' := Then(es, Claim(0, 3));
    es' := SlowReads(es', Run(START, es').db.jobs[3]);
  }

  lemma SlowReads(es: seq<Event>, job: Job) returns (es': seq<Event>)
    requires Scene(Run(START, es), Processing, job, Claimed(3), Idle)
    ensures Run(START, es').now == Run(START, es).now
    ensures Scene(Run(START, es'), Processing, job, Evaluating(3, 0, Writing), Idle)
  {
    es' := Then(es, ReadAttempt(0, Proceed));
  }

  lemma OtherClaims(es: seq<Event>, job: Job, outcome: ReadOutcome) returns (es': seq<Event>)
    requires Scene(Run(START, es), Processing, job, Evaluating(3, 0, Writing), Idle)
    requires job.status.Queued? && job.attempts < 3 && job.nextAttemptAt <= Run(START, es).now
    ensures Run(START, es').now == Run(START, es).now
    ensures var w := Run(START, es');
            Scene(w, Processing, Job(Running, job.attempts + 1, job.nextAttemptAt, w.now), Evaluating(3, 0, Writing),
                  if outcome.Proceed? then Evaluating(3, 0, Writing) else Failing(3))
  {
    es' := Then(es, Claim(1, 3));
    assert Scene(Run(START, es'), Processing, Run(START, es').db.jobs[3], Evaluating(3, 0, Writing), Claimed(3));
    es' := Then(es', ReadAttempt(1, outcome));
  }

  /** A slow worker claims the job of a submitted writing section; its lease lapses and the claim is refunded. */
  lemma SlowWorker() returns (es: seq<Event>)
    ensures var w := Run(START, es);
            Scene(w, Processing, Job(Queued, 0, w.now, w.now), Evaluating(3, 0, Writing), Idle)
  {
    es := Opening();
    es := SlowClaims(es, Job(Queued, 0, 0, 0));
    es := Wait(es, LEASE + 1, Processing, Job(Running, 1, 0, 0), Evaluating(3, 0, Writing), Idle);
    assert Lapsed(Run(START, es).db, 3, Writing, Run(START, es).now);
    es := Then(es, Recover(Writing));
  }

  /** Another worker claims the job and fails it. */
  lemma FailedRound(es: seq<Event>, job: Job) returns (es': seq<Event>)
    requires Scene(Run(START, es), Processing, job, Evaluating(3, 0, Writing), Idle)
    requires job.status.Queued? && job.attempts < 2 && job.nextAttemptAt <= Run(START, es).now + LATER_BACKOFF
    ensures var w := Run(START, es');
            Scene(w, Processing, FailedRun(Job(Running, job.attempts + 1, job.nextAttemptAt, w.now), w.now),
                  Evaluating(3, 0, Writing), Idle)
  {
    es' := Wait(es, LATER_BACKOFF, Processing, job, Evaluating(3, 0, Writing), Idle);
    es' := OtherClaims(es', job, ReadFailed);
    es' := Then(es', ReportFailure(1));
  }

  ghost predicate SubmittedWriting(w: World)
  {
    && 0 in w.sessions && w.sessions[0] == Session(0, SessionInProgress, 1, [1, 2, 3, 4])
    && 3 in w.db.attempts && w.db.attempts[3].status.Submitted?
  }

  lemma SlowSubmits(es: seq<Event>, job: Job) returns (es': seq<Event>)
    requires Scene(Run(START, es), Processing, job, Evaluating(3, 0, Writing), Evaluating(3, 0, Writing))
    ensures var w := Run(START, es');
            && SubmittedWriting(w) && 3 in w.db.jobs && w.db.jobs[3] == job
            && w.workers == map[0 := Completing(3), 1 := Evaluating(3, 0, Writing)]
  {
    es' := Then(es, SubmitEvaluation(0, [], Grade(60, 90), "slow", true));
  }

  lemma OtherIsRefused(es: seq<Event>, job: Job) returns (es': seq<Event>)
    requires var w := Run(START, es);
             && SubmittedWriting(w) && 3 in w.db.jobs && w.db.jobs[3] == job
             && w.workers == map[0 := Idle, 1 := Evaluating(3, 0, Writing)]
    ensures var w := Run(START, es');
            && SubmittedWriting(w) && 3 in w.db.jobs && w.db.jobs[3] == job
            && w.workers == map[0 := Idle, 1 := Failing(3)]
  {
    es' := Then(es, SubmitEvaluation(1, [], Grade(60, 90), "other", true));
  }

  /** The slow worker submits and dies before completing the job; the claimant's submission is then refused. */
  lemma LateSubmission(es: seq<Event>, job: Job) returns (es': seq<Event>)
    requires Scene(Run(START, es), Processing, job, Evaluating(3, 0, Writing), Evaluating(3, 0, Writing))
    ensures var w := Run(START, es');
            && SubmittedWriting(w) && 3 in w.db.jobs && w.db.jobs[3] == job
            && w.workers == map[0 := Idle, 1 := Failing(3)]
  {
    es' := SlowSubmits(es, job);
    es' := Then(es', Crash(0));
    es' := OtherIsRefused(es', job);
  }

  /** Reporting that refusal makes the job of a submitted attempt terminal. */
  lemma LastRound(es: seq<Event>, job: Job) returns (es': seq<Event>)
    requires Scene(Run(START, es), Processing, job, Evaluating(3, 0, Writing), Idle)
    requires job.status.Queued? && job.attempts == 2 && job.nextAttemptAt <= Run(START, es).now + LATER_BACKOFF
    ensures Stuck(Run(START, es'), 3) && SubmittedWriting(Run(START, es'))
  {
    es' := Wait(es, LATER_BACKOFF, Processing, job, Evaluating(3, 0, Writing), Idle);
    es' := OtherClaims(es', job, Proceed);
    es' := LateSubmission(es', Run(START, es').db.jobs[3]);
    es' := Then(es', ReportFailure(1));
  }

  /** Some run leaves a mock in progress that no later run finishes. */
  lemma BlockedMockIsReachable() returns (es: seq<Event>)
    ensures 0 in Run(START, es).sessions && Run(START, es).sessions[0].status.SessionInProgress?
    ensures !CanFinish(Run(START, es), 0)
  {
    es := SlowWorker();
    es := FailedRound(es, Run(START, es).db.jobs[3]);
    es := FailedRound(es, Run(START, es).db.jobs[3]);
    es := LastRound(es, Run(START, es).db.jobs[3]);
    FinishableIffNoneStuck(es, 0);
    assert 3 in Run(START, es).sessions[0].sections;
  }
}
