/** What is stored of an attempt, told from the events alone: its answers, its grade, its evaluation, and who is credited. */
module AssessmentResults {
  import opened Common
  import opened AssessmentRows
  import opened AssessmentInvariants
  import opened AssessmentProtocol
  import opened AssessmentTheorems

  // ---- Grades and evaluations. ----

  datatype Result = Result(grade: Grade, text: Option<string>)

  /** The grade and the text of the submission that took effect for this attempt. */
  ghost function Committed(es: seq<Event>, id: Uuid): Option<Result>
  {
    if es == [] then None
    else
      var w, e := Run(START, es[..|es| - 1]), es[|es| - 1];
      if IsSubmitOf(w, e, id) then Some(Result(e.grade, if e.SubmitEvaluation? then Some(e.text) else None))
      else Committed(es[..|es| - 1], id)
  }

  ghost predicate Stored(d: Db, id: Uuid, r: Option<Result>)
  {
    && (r.Some? ==> id in d.attempts)
    && (id in d.attempts ==> d.attempts[id].grade == if r.Some? then Some(r.value.grade) else None)
    && (id in d.evaluations <==> r.Some? && r.value.text.Some?)
    && (id in d.evaluations ==> r.Some? && r.value.text == Some(d.evaluations[id]))
  }

  lemma GradedByKey(w: World, e: Event, id: Uuid)
    requires e.GradeObjective? && IsSubmitOf(w, e, id) && DbOk(w.db)
    ensures Stored(Apply(w, e).db, id, Some(Result(e.grade, None)))
  {
    assert RowOk(w.db, id);
  }

  lemma GradedByWorker(w: World, e: Event, id: Uuid)
    requires e.SubmitEvaluation? && IsSubmitOf(w, e, id) && DbOk(w.db)
    ensures Stored(WorkerStep(w, e).db, id, Some(Result(e.grade, Some(e.text))))
  {
    assert RowOk(w.db, id);
  }

  /** A step that is no submission leaves grade and evaluation alone; an attempt without result has neither. */
  lemma ResultStays(w: World, e: Event, id: Uuid, r: Option<Result>)
    requires WorldOk(w) && !IsSubmitOf(w, e, id) && Stored(w.db, id, r)
    ensures Stored(Apply(w, e).db, id, r)
  {
    var d, d' := w.db, Apply(w, e).db;
    StepKeeps(w, e);
    SubmitStep(w, e, id);
    if id in d.attempts { assert RowOk(d, id) && RowEvolves(d, d', id); }
    if id in d'.attempts { assert RowOk(d', id); }
  }

  /**
   After any run an attempt has exactly the grade and the evaluation that were submitted with it, whoever else tried and
   whatever came later, and none when nothing was.
   */
  lemma {:induction false} ResultsAreAsSubmitted(es: seq<Event>, id: Uuid)
    ensures Stored(Run(START, es).db, id, Committed(es, id))
  {
    if es != [] {
      var front, e := es[..|es| - 1], es[|es| - 1];
      var w := Run(START, front);
      ResultsAreAsSubmitted(front, id);
      StartKeeps(front);
      if IsSubmitOf(w, e, id) {
        if e.GradeObjective? { GradedByKey(w, e, id); } else { GradedByWorker(w, e, id); }
      } else {
        ResultStays(w, e, id, Committed(front, id));
      }
    }
  }

  lemma RunOneMore(es: seq<Event>, later: seq<Event>)
    requires later != []
    ensures (es + later)[..|es + later| - 1] == es + later[..|later| - 1]
  {}

  /** The result stays what it was submitted as. */
  lemma {:induction false} CommittedStays(es: seq<Event>, later: seq<Event>, id: Uuid)
    requires Committed(es, id).Some?
    ensures Committed(es + later, id) == Committed(es, id)
  {
    if later == [] {
      assert es + later == es;
    } else {
      var front := es + later[..|later| - 1];
      CommittedStays(es, later[..|later| - 1], id);
      RunOneMore(es, later);
      StartKeeps(front);
      ResultsAreAsSubmitted(front, id);
      var w := Run(START, front);
      assert RowOk(w.db, id);
      SubmitStep(w, later[|later| - 1], id);
    }
  }

  // ---- Answers. ----

  /** The answer the list gives last for a question. */
  function LastFor(input: seq<AnswerInput>, q: Uuid): Option<string>
  {
    if input == [] then None
    else if input[|input| - 1].question == q then Some(input[|input| - 1].answer)
    else LastFor(input[..|input| - 1], q)
  }

  /** The step stores its list of answers for this attempt. */
  predicate Stores(w: World, e: Event, id: Uuid)
  {
    || (e.SaveAnswers? && e.id == id && id in w.db.attempts && w.db.attempts[id].status.InProgress?)
    || (e.QueueAssessment? && IsRequeueOf(w, e, id))
    || ((e.GradeObjective? || e.SubmitEvaluation?) && IsSubmitOf(w, e, id))
  }

  /** The answer that was given last for a question of an attempt, by saving, queueing or submitting. */
  ghost function Given(es: seq<Event>, id: Uuid, q: Uuid): Option<string>
  {
    if es == [] then None
    else
      var w, e := Run(START, es[..|es| - 1]), es[|es| - 1];
      if Stores(w, e, id) && LastFor(e.input, q).Some? then LastFor(e.input, q) else Given(es[..|es| - 1], id, q)
  }

  function AnswerAt(answers: Answers, id: Uuid, q: Uuid): Option<string>
  {
    if (id, q) in answers then Some(answers[(id, q)]) else None
  }

  lemma {:induction false} UpsertGivesLast(answers: Answers, id: Uuid, input: seq<AnswerInput>, q: Uuid)
    ensures AnswerAt(Upsert(answers, id, input), id, q)
         == if LastFor(input, q).Some? then LastFor(input, q) else AnswerAt(answers, id, q)
  {
    if input != [] { UpsertGivesLast(answers, id, input[..|input| - 1], q); }
  }

  lemma UpsertElsewhere(answers: Answers, id: Uuid, input: seq<AnswerInput>, other: Uuid, q: Uuid)
    requires other != id
    ensures AnswerAt(Upsert(answers, id, input), other, q) == AnswerAt(answers, other, q)
  {
    UpsertOther(answers, id, input, (other, q));
  }

  /** The answer after a step, as the step's list or the table before says. */
  ghost predicate Answered(w: World, e: Event, d': Db, id: Uuid, q: Uuid)
  {
    AnswerAt(d'.answers, id, q)
    == if Stores(w, e, id) && LastFor(e.input, q).Some? then LastFor(e.input, q) else AnswerAt(w.db.answers, id, q)
  }

  lemma SavingAnswers(w: World, e: Event, id: Uuid, q: Uuid)
    requires e.SaveAnswers?
    ensures Answered(w, e, Apply(w, e).db, id, q) && Apply(w, e).db.progress == w.db.progress
  {
    UpsertGivesLast(w.db.answers, e.id, e.input, q);
    if id != e.id { UpsertElsewhere(w.db.answers, e.id, e.input, id, q); }
  }

  lemma QueueingAnswers(w: World, e: Event, id: Uuid, q: Uuid)
    requires e.QueueAssessment?
    ensures Answered(w, e, Apply(w, e).db, id, q) && Apply(w, e).db.progress == w.db.progress
  {
    UpsertGivesLast(w.db.answers, e.id, e.input, q);
    if id != e.id { UpsertElsewhere(w.db.answers, e.id, e.input, id, q); }
  }

  lemma GradingAnswers(w: World, e: Event, id: Uuid, q: Uuid)
    requires e.GradeObjective? && DbOk(w.db)
    ensures Answered(w, e, Apply(w, e).db, id, q)
  {
    if e.id in w.db.attempts { assert RowOk(w.db, e.id); }
    UpsertGivesLast(w.db.answers, e.id, e.input, q);
    if id != e.id { UpsertElsewhere(w.db.answers, e.id, e.input, id, q); }
  }

  lemma SubmittingAnswers(w: World, e: Event, id: Uuid, q: Uuid)
    requires e.SubmitEvaluation? && DbOk(w.db)
    ensures Answered(w, e, WorkerStep(w, e).db, id, q)
  {
    var k := WorkerAt(w, e.worker);
    if k.Evaluating? {
      if k.id in w.db.attempts { assert RowOk(w.db, k.id); }
      if k.id in w.db.evaluations { assert k.id in w.db.attempts; }
      UpsertGivesLast(w.db.answers, k.id, e.input, q);
      if id != k.id { UpsertElsewhere(w.db.answers, k.id, e.input, id, q); }
    }
  }

  /** Neither answers nor counters change. */
  predicate SameRecords(d: Db, d': Db) { d'.answers == d.answers && d'.progress == d.progress }

  lemma WorkersRecordNothing(w: World, e: Event)
    requires IsWorkerEvent(e) && !e.SubmitEvaluation?
    ensures SameRecords(w.db, Apply(w, e).db)
  {
    assert SameRecords(w.db, WorkerStep(w, e).db);
  }

  lemma TabsRecordNothing(w: World, e: Event)
    requires IsTabEvent(e)
    ensures SameRecords(w.db, Apply(w, e).db)
  {
    assert SameRecords(w.db, TabStep(w, e).db);
  }

  lemma SessionsRecordNothing(w: World, e: Event)
    requires IsSessionEvent(e)
    ensures SameRecords(w.db, Apply(w, e).db)
  {}

  lemma JobsRecordNothing(w: World, e: Event)
    requires e.StartPractice? || e.RetryAssessment? || e.Claim? || e.Recover? || e.LateRenew? || e.AbandonSection? || e.Tick?
    ensures SameRecords(w.db, Apply(w, e).db)
  {}

  lemma OthersRecordNothing(w: World, e: Event)
    requires !e.SaveAnswers? && !e.QueueAssessment? && !e.GradeObjective? && !e.SubmitEvaluation?
    ensures SameRecords(w.db, Apply(w, e).db)
  {
    if IsWorkerEvent(e) { WorkersRecordNothing(w, e); }
    else if IsTabEvent(e) { TabsRecordNothing(w, e); }
    else if IsSessionEvent(e) { SessionsRecordNothing(w, e); }
    else { JobsRecordNothing(w, e); }
  }

  lemma AnswersStep(w: World, e: Event, id: Uuid, q: Uuid)
    requires DbOk(w.db)
    ensures Answered(w, e, Apply(w, e).db, id, q)
  {
    if e.SaveAnswers? { SavingAnswers(w, e, id, q); }
    else if e.QueueAssessment? { QueueingAnswers(w, e, id, q); }
    else if e.GradeObjective? { GradingAnswers(w, e, id, q); }
    else if e.SubmitEvaluation? { SubmittingAnswers(w, e, id, q); }
    else { OthersRecordNothing(w, e); }
  }

  /** After any run the stored answer of a question is the one that was accepted last. */
  lemma {:induction false} AnswersAreLastGiven(es: seq<Event>, id: Uuid, q: Uuid)
    ensures AnswerAt(Run(START, es).db.answers, id, q) == Given(es, id, q)
  {
    if es != [] {
      AnswersAreLastGiven(es[..|es| - 1], id, q);
      StartKeeps(es[..|es| - 1]);
      AnswersStep(Run(START, es[..|es| - 1]), es[|es| - 1], id, q);
    }
  }

  // ---- Who is credited. ----

  ghost function SubmittedBy(d: Db, user: Uuid, skill: Skill): set<Uuid>
  {
    set id | id in d.attempts && d.attempts[id].status.Submitted? && d.attempts[id].user == user && d.attempts[id].skill == skill
  }

  ghost predicate Credited(d: Db)
  {
    forall user: Uuid, skill: Skill :: Completed(d.progress, user, skill) == |SubmittedBy(d, user, skill)|
  }

  /** The attempt a step submits, if it does. */
  function SubmitsFor(w: World, e: Event): Option<Uuid>
  {
    if e.GradeObjective? && IsSubmitOf(w, e, e.id) then Some(e.id)
    else if e.SubmitEvaluation? && WorkerAt(w, e.worker).Evaluating? && IsSubmitOf(w, e, WorkerAt(w, e.worker).id) then
      Some(WorkerAt(w, e.worker).id)
    else None
  }

  /** The owner's counter for the skill goes up by one. */
  ghost predicate Credits(d: Db, d': Db, id: Uuid)
  {
    && id in d.attempts
    && var a := d.attempts[id];
       forall user: Uuid, skill: Skill ::
         Completed(d'.progress, user, skill)
         == Completed(d.progress, user, skill) + if user == a.user && skill == a.skill then 1 else 0
  }

  lemma KeyCredits(w: World, e: Event)
    requires e.GradeObjective? && DbOk(w.db)
    ensures if SubmitsFor(w, e).Some? then Credits(w.db, Apply(w, e).db, e.id) else Apply(w, e).db.progress == w.db.progress
  {
    if e.id in w.db.attempts { assert RowOk(w.db, e.id); }
  }

  lemma WorkerCredits(w: World, e: Event)
    requires e.SubmitEvaluation? && DbOk(w.db) && WorkerOk(w.db, WorkerAt(w, e.worker))
    ensures if SubmitsFor(w, e).Some? then Credits(w.db, WorkerStep(w, e).db, SubmitsFor(w, e).value)
            else WorkerStep(w, e).db.progress == w.db.progress
  {
    var k := WorkerAt(w, e.worker);
    if k.Evaluating? { assert RowOk(w.db, k.id); }
  }

  lemma StepCredits(w: World, e: Event)
    requires WorldOk(w)
    ensures if SubmitsFor(w, e).Some? then Credits(w.db, Apply(w, e).db, SubmitsFor(w, e).value)
            else Apply(w, e).db.progress == w.db.progress
  {
    if e.GradeObjective? {
      KeyCredits(w, e);
    } else if e.SubmitEvaluation? {
      assert WorkerOk(w.db, WorkerAt(w, e.worker));
      WorkerCredits(w, e);
    } else if e.SaveAnswers? {
      SavingAnswers(w, e, 0, 0);
    } else if e.QueueAssessment? {
      QueueingAnswers(w, e, 0, 0);
    } else {
      OthersRecordNothing(w, e);
    }
  }

  lemma OneIsSubmitted(w: World, e: Event, id: Uuid)
    ensures IsSubmitOf(w, e, id) <==> SubmitsFor(w, e) == Some(id)
  {}

  ghost predicate CountsFor(d: Db, id: Uuid, user: Uuid, skill: Skill)
  {
    id in d.attempts && d.attempts[id].user == user && d.attempts[id].skill == skill
  }

  lemma SubmittedStep(w: World, e: Event, id: Uuid, user: Uuid, skill: Skill)
    requires WorldOk(w)
    ensures id in SubmittedBy(Apply(w, e).db, user, skill)
            <==> id in SubmittedBy(w.db, user, skill) || (SubmitsFor(w, e) == Some(id) && CountsFor(w.db, id, user, skill))
    ensures SubmitsFor(w, e) == Some(id) ==> id in w.db.attempts && !SubmittedAt(w.db, id)
  {
    var d, d' := w.db, Apply(w, e).db;
    StepKeeps(w, e);
    SubmitStep(w, e, id);
    OneIsSubmitted(w, e, id);
    if id in d.attempts { assert RowEvolves(d, d', id); }
  }

  lemma SetsGrow(before: set<Uuid>, after: set<Uuid>, x: Option<Uuid>, counts: bool)
    requires forall id :: id in after <==> id in before || (x == Some(id) && counts)
    requires x.Some? ==> x.value !in before
    ensures |after| == |before| + if x.Some? && counts then 1 else 0
  {
    if x.Some? && counts {
      assert after == before + {x.value};
    } else {
      assert after == before;
    }
  }

  /** The set of a user's submitted attempts grows by what the step submits. */
  lemma SubmittedGrow(w: World, e: Event, user: Uuid, skill: Skill)
    requires WorldOk(w)
    ensures var x := SubmitsFor(w, e);
            |SubmittedBy(Apply(w, e).db, user, skill)|
            == |SubmittedBy(w.db, user, skill)| + if x.Some? && CountsFor(w.db, x.value, user, skill) then 1 else 0
  {
    var x, d' := SubmitsFor(w, e), Apply(w, e).db;
    var counts := x.Some? && CountsFor(w.db, x.value, user, skill);
    if x.Some? { SubmittedStep(w, e, x.value, user, skill); }
    forall id ensures id in SubmittedBy(d', user, skill) <==> id in SubmittedBy(w.db, user, skill) || (x == Some(id) && counts) {
      SubmittedStep(w, e, id, user, skill);
    }
    SetsGrow(SubmittedBy(w.db, user, skill), SubmittedBy(d', user, skill), x, counts);
  }

  /** After any run each user's counter of completed tasks is the number of their own submitted attempts, per skill. */
  lemma {:induction false} EveryoneIsCredited(es: seq<Event>)
    ensures Credited(Run(START, es).db)
  {
    if es == [] {
      forall user: Uuid, skill: Skill ensures Completed(START.db.progress, user, skill) == |SubmittedBy(START.db, user, skill)| {
        assert SubmittedBy(START.db, user, skill) == {};
      }
    } else {
      var w, e := Run(START, es[..|es| - 1]), es[|es| - 1];
      EveryoneIsCredited(es[..|es| - 1]);
      StartKeeps(es[..|es| - 1]);
      StepCredits(w, e);
      forall user: Uuid, skill: Skill
        ensures Completed(Apply(w, e).db.progress, user, skill) == |SubmittedBy(Apply(w, e).db, user, skill)|
      {
        SubmittedGrow(w, e, user, skill);
      }
    }
  }
}
