/** What holds after every run of the assessment protocol. */
module AssessmentTheorems {
  import opened Common
  import opened AssessmentRows
  import opened AssessmentInvariants
  import opened FullMockRows
  import opened AssessmentProtocol

  lemma StartKeeps(es: seq<Event>)
    ensures WorldOk(Run(START, es)) && Balanced(Run(START, es).db)
  {
    forall skill: Skill ensures Total(START.db.progress, skill) == |SubmittedIds(START.db, skill)| {
      assert SubmittedIds(START.db, skill) == {};
    }
    RunKeeps(START, es);
  }

  /** An attempt is being processed exactly when it has a live job and no result yet. */
  lemma ProcessingMeansLiveJob(es: seq<Event>, id: Uuid)
    requires id in Run(START, es).db.attempts
    ensures var d := Run(START, es).db;
            d.attempts[id].status.Processing?
            <==> id in d.jobs && d.jobs[id].status.Live() && !d.attempts[id].status.Submitted?
  {
    StartKeeps(es);
    assert RowOk(Run(START, es).db, id);
  }

  /** The retry counter of every job row, in every reachable state. */
  lemma CounterBounds(es: seq<Event>, id: Uuid)
    requires id in Run(START, es).db.jobs
    ensures var j := Run(START, es).db.jobs[id];
            && (j.status.Queued? ==> j.attempts <= 2)
            && (j.status.Running? ==> 1 <= j.attempts <= 3)
            && (j.status.Failed? ==> j.attempts == 3)
  {
    StartKeeps(es);
    assert RowOk(Run(START, es).db, id);
  }

  /** No queued job becomes unclaimable: once its back-off is over a claim succeeds. */
  lemma QueuedJobIsClaimable(es: seq<Event>, id: Uuid, now: int)
    requires Run(START, es).db.JobIs(id, Queued) && Run(START, es).db.jobs[id].nextAttemptAt <= now
    ensures ClaimTx(Run(START, es).db, id, now).1
  {
    CounterBounds(es, id);
  }

  /** A failed run backs off ten seconds after the first claim and a minute after the second; the third is the last. */
  lemma BackOff(es: seq<Event>, id: Uuid, now: int, later: int)
    requires Run(START, es).db.JobIs(id, Running) && id in Run(START, es).db.attempts
    ensures var d := Run(START, es).db; var d' := FailTx(d, id, now);
            ClaimTx(d', id, later).1
            <==> (d.jobs[id].attempts == 1 && later >= now + 10_000) || (d.jobs[id].attempts == 2 && later >= now + 60_000)
  {
    CounterBounds(es, id);
  }

  /** Work that is queued, for the first time or again, may be claimed at once. */
  lemma QueuedAtOnce(es: seq<Event>, id: Uuid, input: seq<AnswerInput>, now: int, later: int)
    ensures var d := Run(START, es).db;
            && (QueueTx(d, id, input, now).1.Done? <==> id in d.attempts && d.attempts[id].status.InProgress?)
            && (QueueTx(d, id, input, now).1.Done? ==> (ClaimTx(QueueTx(d, id, input, now).0, id, later).1 <==> later >= now))
            && (RetryTx(d, id, now).1.Done? ==> (ClaimTx(RetryTx(d, id, now).0, id, later).1 <==> later >= now))
  {
  }

  /** An assessment can be retried exactly when its attempt is open and its job has failed for good. */
  lemma RetryExactlyWhenFailed(es: seq<Event>, id: Uuid, now: int)
    ensures var d := Run(START, es).db;
            RetryTx(d, id, now).1.Done? <==> id in d.attempts && d.attempts[id].status.InProgress? && d.JobIs(id, Failed)
  {
    StartKeeps(es);
    if id in Run(START, es).db.attempts { assert RowOk(Run(START, es).db, id); }
  }

  /** Work that waits for a transcript may be claimed again three seconds later. */
  lemma DeferredBriefly(es: seq<Event>, id: Uuid, now: int, later: int)
    requires Run(START, es).db.JobIs(id, Running)
    ensures ClaimTx(DeferTx(Run(START, es).db, id, now), id, later).1 <==> later >= now + 3_000
  {
    CounterBounds(es, id);
  }

  /** A claim holds for two minutes, counted from the last time it was renewed; then the work can be taken over. */
  lemma LeaseOfTwoMinutes(es: seq<Event>, id: Uuid, now: int, renewed: int, later: int)
    requires var d := Run(START, es).db; id in d.attempts && ClaimTx(d, id, now).1
    ensures var d := Run(START, es).db; var claimed := ClaimTx(d, id, now).0; var skill := d.attempts[id].skill;
            && !ClaimTx(claimed, id, later).1
            && (ClaimTx(RecoverTx(claimed, skill, later), id, later).1 <==> later > now + 120_000)
            && (ClaimTx(RecoverTx(RenewTx(claimed, id, renewed), skill, later), id, later).1 <==> later > renewed + 120_000)
  {
    CounterBounds(es, id);
  }

  // ---- Claims, refunds and the counter. ----

  predicate IsClaimOf(w: World, e: Event, id: Uuid)
  {
    e.Claim? && e.id == id && WorkerAt(w, e.worker).Idle? && Claimable(w.db, id, w.now)
  }

  predicate IsRefundOf(w: World, e: Event, id: Uuid)
  {
    || (e.Defer? && WorkerAt(w, e.worker) == Deferring(id) && w.db.JobIs(id, Running))
    || (e.Recover? && Lapsed(w.db, id, e.skill, w.now))
  }

  predicate IsRequeueOf(w: World, e: Event, id: Uuid)
  {
    || (e.QueueAssessment? && e.id == id && IsAssessed(w.db, id) && QueueTx(w.db, id, e.input, w.now).1 == Done)
    || (e.RetryAssessment? && e.id == id && RetryTx(w.db, id, w.now).1 == Done)
  }

  /** Claims of a job since it was last queued or retried. */
  ghost function Claims(es: seq<Event>, id: Uuid): nat
  {
    if es == [] then 0
    else
      var w, e := Run(START, es[..|es| - 1]), es[|es| - 1];
      if IsRequeueOf(w, e, id) then 0
      else Claims(es[..|es| - 1], id) + (if IsClaimOf(w, e, id) then 1 else 0)
  }

  /** Claims given back since then, by a lapsed lease or a deferral. */
  ghost function Refunds(es: seq<Event>, id: Uuid): nat
  {
    if es == [] then 0
    else
      var w, e := Run(START, es[..|es| - 1]), es[|es| - 1];
      if IsRequeueOf(w, e, id) then 0
      else Refunds(es[..|es| - 1], id) + (if IsRefundOf(w, e, id) then 1 else 0)
  }

  /** The job row of `id` after a step, told from the row before and from what the step meant for it. */
  ghost predicate Counted(w: World, e: Event, id: Uuid)
  {
    var j, j' := JobOf(w.db, id), JobOf(Apply(w, e).db, id);
    && (IsRequeueOf(w, e, id) ==> j'.Some? && j'.value.attempts == 0)
    && (!IsRequeueOf(w, e, id) ==> (j.None? <==> j'.None?))
    && (!IsRequeueOf(w, e, id) && j.Some? && j'.Some? ==>
          j'.value.attempts == j.value.attempts + (if IsClaimOf(w, e, id) then 1 else 0)
                                                - (if IsRefundOf(w, e, id) then 1 else 0))
    && (IsClaimOf(w, e, id) || IsRefundOf(w, e, id) ==> j.Some?)
  }

  /** The refund GREATEST(attempts - 1, 0) never clips: a running job has been claimed. */
  ghost predicate RunningWasClaimed(d: Db, id: Uuid) { d.JobIs(id, Running) ==> d.jobs[id].attempts >= 1 }

  predicate IsSessionEvent(e: Event) { e.StartSession? || e.FinishSession? || e.AbandonSession? }

  lemma EndCounted(w: World, e: Event, id: Uuid)
    requires RunningWasClaimed(w.db, id) && (e.Complete? || e.ReportFailure? || e.Renew?)
    ensures Counted(w, e, id)
  {}

  lemma DeferCounted(w: World, e: Event, id: Uuid)
    requires RunningWasClaimed(w.db, id) && e.Defer?
    ensures Counted(w, e, id)
  {}

  lemma WorkerCounted(w: World, e: Event, id: Uuid)
    requires RunningWasClaimed(w.db, id) && IsWorkerEvent(e)
    ensures Counted(w, e, id)
  {
    if e.Complete? || e.ReportFailure? || e.Renew? {
      EndCounted(w, e, id);
    } else if e.Defer? {
      DeferCounted(w, e, id);
    } else {
      assert WorkerStep(w, e).db.jobs == w.db.jobs;
    }
  }

  lemma SessionCounted(w: World, e: Event, id: Uuid)
    requires IsSessionEvent(e) || IsTabEvent(e)
    ensures Counted(w, e, id)
  {
    if IsTabEvent(e) {
      assert TabStep(w, e).db.jobs == w.db.jobs;
    } else if e.StartSession? {
      assert StartSessionStep(w, e.session, e.user, e.sections).db.jobs == w.db.jobs;
    } else if e.FinishSession? {
      assert FinishStep(w, e.session).db.jobs == w.db.jobs;
    } else {
      assert AbandonStep(w, e.session).db.jobs == w.db.jobs;
    }
  }

  lemma RequeueCounted(w: World, e: Event, id: Uuid)
    requires e.QueueAssessment? || e.RetryAssessment?
    ensures Counted(w, e, id)
  {}

  lemma ClaimCounted(w: World, e: Event, id: Uuid)
    requires e.Claim?
    ensures Counted(w, e, id)
  {}

  lemma RecoverCounted(w: World, e: Event, id: Uuid)
    requires RunningWasClaimed(w.db, id) && e.Recover?
    ensures Counted(w, e, id)
  {}

  lemma OtherCounted(w: World, e: Event, id: Uuid)
    requires RunningWasClaimed(w.db, id)
    requires !IsWorkerEvent(e) && !IsSessionEvent(e) && !IsTabEvent(e)
    ensures Counted(w, e, id)
  {
    if e.QueueAssessment? || e.RetryAssessment? { RequeueCounted(w, e, id); }
    else if e.Claim? { ClaimCounted(w, e, id); }
    else if e.Recover? { RecoverCounted(w, e, id); }
  }

  /** How one step changes the counter of one job. */
  lemma CounterStep(w: World, e: Event, id: Uuid)
    requires DbOk(w.db)
    ensures Counted(w, e, id)
  {
    if id in w.db.jobs { assert RowOk(w.db, id); }
    assert RunningWasClaimed(w.db, id);
    if IsWorkerEvent(e) { WorkerCounted(w, e, id); }
    else if IsSessionEvent(e) || IsTabEvent(e) { SessionCounted(w, e, id); }
    else { OtherCounted(w, e, id); }
  }

  /** Claims since the last queue or retry are the counter plus the refunds, after every run. */
  lemma {:induction false} ClaimsAccounted(es: seq<Event>, id: Uuid)
    ensures var j := JobOf(Run(START, es).db, id);
            if j.Some? then Claims(es, id) == j.value.attempts + Refunds(es, id)
            else Claims(es, id) == 0 && Refunds(es, id) == 0
  {
    if es != [] {
      var before := es[..|es| - 1];
      ClaimsAccounted(before, id);
      StartKeeps(before);
      CounterStep(Run(START, before), es[|es| - 1], id);
    }
  }

  /** Without refunds a job is claimed at most three times before somebody queues it again. */
  lemma ThreeClaims(es: seq<Event>, id: Uuid)
    ensures Claims(es, id) <= 3 + Refunds(es, id)
  {
    ClaimsAccounted(es, id);
    StartKeeps(es);
    if id in Run(START, es).db.jobs {
      CounterBounds(es, id);
      assert RowOk(Run(START, es).db, id);
    }
  }

  // ---- Results are final and counted once. ----

  /** Outcome, grade, evaluation and answers of a closed attempt are the same after every later run. */
  lemma ClosedIsFinal(es: seq<Event>, later: seq<Event>, id: Uuid)
    requires Run(START, es).db.ClosedAt(id)
    ensures Frozen(Run(START, es).db, Run(Run(START, es), later).db, id)
  {
    StartKeeps(es);
    RunKeeps(Run(START, es), later);
    assert RowEvolves(Run(START, es).db, Run(Run(START, es), later).db, id);
  }

  /** The step commits a Submit transaction for this attempt. */
  predicate IsSubmitOf(w: World, e: Event, id: Uuid)
  {
    || (e.GradeObjective? && e.id == id && id in w.db.attempts && !w.db.attempts[id].skill.Assessed()
        && !w.db.attempts[id].status.Closed())
    || (e.SubmitEvaluation? && WorkerAt(w, e.worker).Evaluating? && WorkerAt(w, e.worker).id == id
        && id in w.db.attempts && !w.db.attempts[id].status.Closed())
  }

  ghost function Submissions(es: seq<Event>, id: Uuid): nat
  {
    if es == [] then 0
    else Submissions(es[..|es| - 1], id) + (if IsSubmitOf(Run(START, es[..|es| - 1]), es[|es| - 1], id) then 1 else 0)
  }

  ghost predicate SubmittedAt(d: Db, id: Uuid) { id in d.attempts && d.attempts[id].status.Submitted? }

  ghost predicate SubmitCounted(w: World, e: Event, id: Uuid)
  {
    var w' := Apply(w, e);
    && (IsSubmitOf(w, e, id) ==> !SubmittedAt(w.db, id) && SubmittedAt(w'.db, id))
    && (!IsSubmitOf(w, e, id) ==> (SubmittedAt(w.db, id) <==> SubmittedAt(w'.db, id)))
  }

  lemma WorkerSubmitStep(w: World, e: Event, id: Uuid)
    requires IsWorkerEvent(e)
    requires e.SubmitEvaluation? && WorkerAt(w, e.worker).Evaluating? ==>
               var x := WorkerAt(w, e.worker).id; x in w.db.attempts && (x in w.db.evaluations ==> w.db.ClosedAt(x))
    ensures SubmitCounted(w, e, id)
  {}

  lemma TabSubmitStep(w: World, e: Event, id: Uuid)
    requires IsTabEvent(e)
    ensures SubmitCounted(w, e, id)
  {}

  lemma SessionSubmitStep(w: World, e: Event, id: Uuid)
    requires IsSessionEvent(e)
    ensures SubmitCounted(w, e, id)
  {}

  lemma OtherSubmitStep(w: World, e: Event, id: Uuid)
    requires !IsWorkerEvent(e) && !IsSessionEvent(e) && !IsTabEvent(e)
    ensures SubmitCounted(w, e, id)
  {}

  lemma SubmitStep(w: World, e: Event, id: Uuid)
    requires WorldOk(w)
    ensures SubmitCounted(w, e, id)
  {
    if IsWorkerEvent(e) {
      var k := WorkerAt(w, e.worker);
      assert WorkerOk(w.db, k);
      if k.Evaluating? { assert RowOk(w.db, k.id); }
      WorkerSubmitStep(w, e, id);
    }
    else if IsTabEvent(e) { TabSubmitStep(w, e, id); }
    else if IsSessionEvent(e) { SessionSubmitStep(w, e, id); }
    else { OtherSubmitStep(w, e, id); }
  }

  /** However many workers finish the same attempt, one grade is recorded, and an evaluation with it. */
  lemma {:induction false} OneSubmission(es: seq<Event>, id: Uuid)
    ensures var d := Run(START, es).db;
            && Submissions(es, id) == (if SubmittedAt(d, id) then 1 else 0)
            && (id in d.evaluations <==> SubmittedAt(d, id) && d.attempts[id].skill.Assessed())
  {
    StartKeeps(es);
    if id in Run(START, es).db.attempts { assert RowOk(Run(START, es).db, id); }
    if es != [] {
      var before := es[..|es| - 1];
      OneSubmission(before, id);
      StartKeeps(before);
      SubmitStep(Run(START, before), es[|es| - 1], id);
    }
  }

  /** Per skill, the completed tasks of all users add up to the submitted attempts. */
  lemma CompletedTasksConserved(es: seq<Event>, skill: Skill)
    ensures Total(Run(START, es).db.progress, skill) == |SubmittedIds(Run(START, es).db, skill)|
  {
    StartKeeps(es);
  }

  // ---- Full mocks. ----

  /** A section behind the current one is open again only because its assessment failed. */
  lemma ReopenedSectionFailed(es: seq<Event>, sid: Uuid, i: nat)
    requires var w := Run(START, es);
             sid in w.sessions && w.sessions[sid].status.SessionInProgress? && i + 1 < w.sessions[sid].current
    ensures var w := Run(START, es); var s := w.sessions[sid];
            i < |s.sections| && s.sections[i] in w.db.attempts
            && (w.db.attempts[s.sections[i]].status.InProgress? ==> w.db.JobIs(s.sections[i], Failed))
  {
    StartKeeps(es);
    assert SessionOk(Run(START, es).db, Run(START, es).sessions[sid]);
    assert Passed(Run(START, es).db, Run(START, es).sessions[sid].sections[i]);
  }

  /** The mock is in progress, not at its last section, and the section it is at is checked out. */
  predicate MayMoveOn(w: World, sid: Uuid)
  {
    && sid in w.sessions && w.sessions[sid].status.SessionInProgress?
    && 1 <= w.sessions[sid].current < |w.sessions[sid].sections|
    && CheckedOut(w.db, w.sessions[sid].sections[w.sessions[sid].current - 1])
  }

  lemma LooksAndChecks(w: World, sid: Uuid, tab: nat)
    requires MayMoveOn(w, sid)
    ensures var w' := TabStep(TabStep(w, LookAtSession(tab, sid)), CheckSection(tab));
            w' == w.(tabs := w'.tabs) && TabAt(w', tab) == Advancing(sid, w.sessions[sid].current + 1)
  {
    var w1 := TabStep(w, LookAtSession(tab, sid));
    assert w1 == w.(tabs := w1.tabs) && TabAt(w1, tab) == Looking(sid, w.sessions[sid].current);
  }

  /** A tab looks, checks and commits without anybody in between. */
  function Advanced(w: World, sid: Uuid, tab: nat): World
  {
    TabStep(TabStep(TabStep(w, LookAtSession(tab, sid)), CheckSection(tab)), CommitAdvance(tab))
  }

  lemma Commits(w: World, sid: Uuid, tab: nat)
    requires MayMoveOn(w, sid)
    ensures var s := w.sessions[sid];
            Advanced(w, sid, tab).sessions == w.sessions[sid := s.(current := s.current + 1)] && Advanced(w, sid, tab).db == w.db
  {
    LooksAndChecks(w, sid, tab);
  }

  lemma AdvancedApplies(w: World, sid: Uuid, tab: nat)
    ensures Apply(Apply(Apply(w, LookAtSession(tab, sid)), CheckSection(tab)), CommitAdvance(tab)) == Advanced(w, sid, tab)
  {
    var w1 := TabStep(w, LookAtSession(tab, sid));
    assert Apply(w, LookAtSession(tab, sid)) == w1;
    assert Apply(w1, CheckSection(tab)) == TabStep(w1, CheckSection(tab));
  }

  /** A mock moves on from a section that is checked out, as soon as a tab looks, checks and commits. */
  lemma CheckedOutMovesOn(es: seq<Event>, sid: Uuid, tab: nat)
    requires MayMoveOn(Run(START, es), sid)
    ensures var w := Run(START, es); var s := w.sessions[sid];
            var w' := Apply(Apply(Apply(w, LookAtSession(tab, sid)), CheckSection(tab)), CommitAdvance(tab));
            w'.sessions == w.sessions[sid := s.(current := s.current + 1)] && w'.db == w.db
  {
    Commits(Run(START, es), sid, tab);
    AdvancedApplies(Run(START, es), sid, tab);
  }

  /** A mock in progress moves one section at a time, and leaves none whose attempt is open. */
  ghost predicate MovesOneAhead(w: World, w': World, sid: Uuid)
  {
    sid in w.sessions && sid in w'.sessions && w'.sessions[sid].status.SessionInProgress? ==>
      var s, s' := w.sessions[sid], w'.sessions[sid];
      s' == s || (s' == s.(current := s.current + 1) && 1 <= s.current < 4 && |s.sections| == 4 && Passed(w.db, s.sections[s.current - 1]))
  }

  lemma TabMovesOneAhead(w: World, e: Event, sid: Uuid)
    requires WorldOk(w) && IsTabEvent(e)
    ensures MovesOneAhead(w, TabStep(w, e), sid)
  {
    var t := TabAt(w, e.tab);
    if e.tab in w.tabs { assert TabOk(w, t); }
    if t.Advancing? { assert SessionOk(w.db, w.sessions[t.session]); }
  }

  lemma WorkersMoveNobody(w: World, e: Event, sid: Uuid)
    requires IsWorkerEvent(e)
    ensures MovesOneAhead(w, Apply(w, e), sid)
  {
    assert WorkerStep(w, e).sessions == w.sessions;
  }

  lemma OthersMoveNobody(w: World, e: Event, sid: Uuid)
    requires !IsTabEvent(e) && !IsWorkerEvent(e)
    ensures MovesOneAhead(w, Apply(w, e), sid)
  {
  }

  lemma OneSectionAtATime(es: seq<Event>, e: Event, sid: Uuid)
    ensures MovesOneAhead(Run(START, es), Apply(Run(START, es), e), sid)
  {
    StartKeeps(es);
    StepMovesOneAhead(Run(START, es), e, sid);
  }

  lemma StepMovesOneAhead(w: World, e: Event, sid: Uuid)
    requires WorldOk(w)
    ensures MovesOneAhead(w, Apply(w, e), sid)
  {
    if IsTabEvent(e) {
      TabMovesOneAhead(w, e, sid);
    } else if IsWorkerEvent(e) {
      WorkersMoveNobody(w, e, sid);
    } else {
      OthersMoveNobody(w, e, sid);
    }
  }

  /** A session keeps its sections, and is left alone once it is over. */
  ghost predicate SessionKept(w: World, w': World, sid: Uuid)
    requires sid in w.sessions
  {
    && sid in w'.sessions
    && w'.sessions[sid].sections == w.sessions[sid].sections
    && (!w.sessions[sid].status.SessionInProgress? ==> w'.sessions[sid] == w.sessions[sid])
  }

  lemma SessionStep(w: World, e: Event, sid: Uuid)
    requires sid in w.sessions
    ensures SessionKept(w, Apply(w, e), sid)
  {
    if IsWorkerEvent(e) {
      assert WorkerStep(w, e).sessions == w.sessions;
    } else if IsTabEvent(e) {
      assert SessionKept(w, TabStep(w, e), sid);
    }
  }

  lemma {:induction false} SessionRun(w: World, later: seq<Event>, sid: Uuid)
    requires sid in w.sessions
    ensures SessionKept(w, Run(w, later), sid)
  {
    if later != [] {
      SessionRun(w, later[..|later| - 1], sid);
      SessionStep(Run(w, later[..|later| - 1]), later[|later| - 1], sid);
    }
  }

  /** A mock that is given up is over for good, and none of its sections is left in progress. */
  lemma AbandonedMockIsOver(es: seq<Event>, later: seq<Event>, sid: Uuid, i: nat)
    requires var w := Run(START, es);
             sid in w.sessions && w.sessions[sid].status.SessionInProgress? && i < |w.sessions[sid].sections|
    ensures var w := Run(START, es); var w' := Apply(w, AbandonSession(sid)); var id := w.sessions[sid].sections[i];
            && sid in w'.sessions && w'.sessions[sid] == w.sessions[sid].(status := SessionAbandoned)
            && sid in Run(w', later).sessions && Run(w', later).sessions[sid] == w'.sessions[sid]
            && id in w.db.attempts && id in w'.db.attempts
            && w'.db.attempts[id].status == if w.db.attempts[id].status.InProgress? then Abandoned else w.db.attempts[id].status
  {
    StartKeeps(es);
    var w := Run(START, es);
    assert SessionOk(w.db, w.sessions[sid]);
    AbandonedNow(w, sid, i);
    SessionRun(Apply(w, AbandonSession(sid)), later, sid);
  }

  lemma AbandonedNow(w: World, sid: Uuid, i: nat)
    requires sid in w.sessions && w.sessions[sid].status.SessionInProgress? && i < |w.sessions[sid].sections|
    requires w.sessions[sid].sections[i] in w.db.attempts
    ensures var w' := Apply(w, AbandonSession(sid)); var id := w.sessions[sid].sections[i];
            && sid in w'.sessions && w'.sessions[sid] == w.sessions[sid].(status := SessionAbandoned)
            && id in w'.db.attempts
            && w'.db.attempts[id].status == if w.db.attempts[id].status.InProgress? then Abandoned else w.db.attempts[id].status
  {
  }

  /** A finished mock stays finished, with every section closed and unchanged on every later run. */
  lemma FinishedMockIsFinal(es: seq<Event>, later: seq<Event>, sid: Uuid, i: nat)
    requires var w := Run(START, es);
             sid in w.sessions && w.sessions[sid].status.SessionSubmitted? && i < |w.sessions[sid].sections|
    ensures var w := Run(START, es); var w' := Run(w, later); var id := w.sessions[sid].sections[i];
            && sid in w'.sessions && w'.sessions[sid] == w.sessions[sid]
            && w.db.ClosedAt(id) && Frozen(w.db, w'.db, id)
            && !w'.db.Blocks(id)
  {
    StartKeeps(es);
    var w := Run(START, es);
    assert SessionOk(w.db, w.sessions[sid]);
    var id := w.sessions[sid].sections[i];
    assert Settled(w.db, id);
    ClosedIsFinal(es, later, id);
    RunKeeps(w, later);
    assert RowEvolves(w.db, Run(w, later).db, id);
    SessionRun(w, later, sid);
  }
}
