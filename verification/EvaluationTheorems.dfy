/** What an evaluation belongs to, over every run of students, uploads and workers. */
module EvaluationTheorems {
  import opened Common
  import opened AssessmentRows
  import opened AssessmentInvariants
  import opened EvaluationSources
  import AssessmentTheorems
  import A = AssessmentProtocol
  import T = Transcription

  // ---- Rows of an attempt that is being processed do not change. ----

  /** An attempt that is being processed after the step was so before, with the same answers. */
  ghost predicate KeepsHeld(d: Db, d': Db, id: Uuid)
  {
    id in d'.attempts && d'.attempts[id].status.Processing? ==>
      id in d.attempts && d.attempts[id].status.Processing? && SameRows(d.answers, d'.answers, id)
  }

  lemma UpsertSameRows(answers: Answers, id: Uuid, input: seq<AnswerInput>, other: Uuid)
    requires other != id
    ensures SameRows(answers, Upsert(answers, id, input), other)
  {
    forall q: Uuid
      ensures (other, q) in answers <==> (other, q) in Upsert(answers, id, input)
      ensures (other, q) in answers ==> Upsert(answers, id, input)[(other, q)] == answers[(other, q)]
    {
      UpsertOther(answers, id, input, (other, q));
    }
  }

  lemma WorkerKeepsHeld(w: A.World, e: A.Event, id: Uuid)
    requires A.IsWorkerEvent(e) && !e.SubmitEvaluation?
    ensures KeepsHeld(w.db, A.Apply(w, e).db, id)
  {
    assert KeepsHeld(w.db, A.WorkerStep(w, e).db, id);
  }

  lemma SubmitKeepsHeld(d: Db, r: SubmitResult, id: Uuid)
    ensures KeepsHeld(d, SubmitTx(d, r).0, id)
  {
    if id != r.attempt { UpsertSameRows(d.answers, r.attempt, r.answers, id); }
  }

  lemma TabKeepsHeld(w: A.World, e: A.Event, id: Uuid)
    requires A.IsTabEvent(e)
    ensures KeepsHeld(w.db, A.Apply(w, e).db, id)
  {
    assert KeepsHeld(w.db, A.TabStep(w, e).db, id);
  }

  lemma SessionKeepsHeld(w: A.World, e: A.Event, id: Uuid)
    requires e.StartSession? || e.FinishSession? || e.AbandonSession?
    ensures KeepsHeld(w.db, A.Apply(w, e).db, id)
  {}

  lemma SaveKeepsHeld(d: Db, other: Uuid, input: seq<AnswerInput>, id: Uuid)
    ensures KeepsHeld(d, SaveAnswersTx(d, other, input).0, id)
  {
    if id != other { UpsertSameRows(d.answers, other, input, id); }
  }

  lemma QueueKeepsHeld(d: Db, other: Uuid, input: seq<AnswerInput>, now: int, id: Uuid)
    requires id == other ==> QueueTx(d, other, input, now).1 != Done
    ensures KeepsHeld(d, QueueTx(d, other, input, now).0, id)
  {
    if id != other { UpsertSameRows(d.answers, other, input, id); }
  }

  lemma JobKeepsHeld(w: A.World, e: A.Event, id: Uuid)
    requires e.Claim? || e.Recover? || e.LateRenew? || e.Tick?
    ensures KeepsHeld(w.db, A.Apply(w, e).db, id)
  {}

  lemma OtherKeepsHeld(w: A.World, e: A.Event, id: Uuid)
    requires e.StartPractice? || e.RetryAssessment? || e.AbandonSection?
    requires e.RetryAssessment? ==> !AssessmentTheorems.IsRequeueOf(w, e, id)
    ensures KeepsHeld(w.db, A.Apply(w, e).db, id)
  {}

  lemma EvaluationKeepsHeld(w: A.World, e: A.Event, id: Uuid)
    requires e.SubmitEvaluation?
    ensures KeepsHeld(w.db, A.Apply(w, e).db, id)
  {
    var k := A.WorkerAt(w, e.worker);
    if k.Evaluating? {
      SubmitKeepsHeld(w.db, SubmitResult(k.id, k.user, k.skill, e.input, e.grade, Some(e.text)), id);
    }
  }

  lemma StoringKeepsHeld(w: A.World, e: A.Event, id: Uuid)
    requires e.SaveAnswers? || e.GradeObjective? || e.QueueAssessment?
    requires !AssessmentTheorems.IsRequeueOf(w, e, id)
    ensures KeepsHeld(w.db, A.Apply(w, e).db, id)
  {
    if e.SaveAnswers? {
      SaveKeepsHeld(w.db, e.id, e.input, id);
    } else if e.GradeObjective? {
      GradeKeepsHeld(w, e, id);
    } else if A.IsAssessed(w.db, e.id) {
      QueueKeepsHeld(w.db, e.id, e.input, w.now, id);
    }
  }

  /** Only queueing it lets an attempt be processed with other answers. */
  lemma StepKeepsHeld(w: A.World, e: A.Event, id: Uuid)
    requires !AssessmentTheorems.IsRequeueOf(w, e, id)
    ensures KeepsHeld(w.db, A.Apply(w, e).db, id)
  {
    if e.SubmitEvaluation? {
      EvaluationKeepsHeld(w, e, id);
    } else if A.IsWorkerEvent(e) {
      WorkerKeepsHeld(w, e, id);
    } else if A.IsTabEvent(e) {
      TabKeepsHeld(w, e, id);
    } else if e.StartSession? || e.FinishSession? || e.AbandonSession? {
      SessionKeepsHeld(w, e, id);
    } else if e.SaveAnswers? || e.GradeObjective? || e.QueueAssessment? {
      StoringKeepsHeld(w, e, id);
    } else if e.Claim? || e.Recover? || e.LateRenew? || e.Tick? {
      JobKeepsHeld(w, e, id);
    } else {
      OtherKeepsHeld(w, e, id);
    }
  }

  lemma GradeKeepsHeld(w: A.World, e: A.Event, id: Uuid)
    requires e.GradeObjective?
    ensures KeepsHeld(w.db, A.Apply(w, e).db, id)
  {
    if e.id in w.db.attempts {
      var a := w.db.attempts[e.id];
      SubmitKeepsHeld(w.db, SubmitResult(e.id, a.user, a.skill, e.input, e.grade, None), id);
    }
  }

  // ---- What a submission stores. ----

  /** The last answer stored for a question is the one found there. */
  lemma {:induction false} UpsertHolds(answers: Answers, id: Uuid, input: seq<AnswerInput>, i: nat, text: string)
    requires i < |input| && forall j | 0 <= j < |input| && input[j].question == input[i].question :: input[j].answer == text
    ensures (id, input[i].question) in Upsert(answers, id, input)
    ensures Upsert(answers, id, input)[(id, input[i].question)] == text
  {
    var front, last := input[..|input| - 1], input[|input| - 1];
    if last.question != input[i].question { UpsertHolds(answers, id, front, i, text); }
  }

  lemma GradedIsStored(answers: Answers, m: Notes, parts: seq<Uuid>, q: Uuid)
    requires q in parts && forall p | p in parts :: TextOf(m, p).Some?
    ensures var stored := Upsert(answers, m.attempt, Graded(m, parts));
            (m.attempt, q) in stored && stored[(m.attempt, q)] == TextOf(m, q).value
  {
    var i :| 0 <= i < |parts| && parts[i] == q;
    UpsertHolds(answers, m.attempt, Graded(m, parts), i, TextOf(m, q).value);
  }

  // ---- The invariant is kept. ----

  lemma HeldStays(w: World, w': World, id: Uuid)
    requires Held(w, id) && KeepsHeld(w.a.db, w'.a.db, id)
    requires id in w.queued ==> id in w'.queued && w'.queued[id] == w.queued[id]
    ensures Held(w', id)
  {}

  lemma NotesStay(w: World, w': World, m: Notes)
    requires NotesOk(w, m)
    requires Round(w, m.attempt) <= Round(w', m.attempt)
    requires Round(w, m.attempt) == Round(w', m.attempt) && m.attempt in w.queued ==>
               m.attempt in w'.queued && w'.queued[m.attempt] == w.queued[m.attempt]
    ensures NotesOk(w', m)
  {}

  lemma HeardStays(w: T.World, e: T.Event, m: Notes)
    requires HeardOk(w.tables, m)
    ensures HeardOk(T.Apply(w, e).tables, m)
  {}

  lemma MadeStays(d: Db, d': Db, id: Uuid, m: Made)
    requires Evolves(d, d') && MadeOk(d, id, m)
    ensures MadeOk(d', id, m)
  {
    assert RowEvolves(d, d', id);
  }

  /** Nobody but a submission of an evaluation closes an assessed attempt as submitted. */
  lemma OnlySubmissionsSubmit(w: A.World, e: A.Event, id: Uuid)
    requires A.WorldOk(w) && !e.SubmitEvaluation? && AssessmentTheorems.SubmittedAt(A.Apply(w, e).db, id)
    requires A.Apply(w, e).db.attempts[id].skill.Assessed()
    ensures AssessmentTheorems.SubmittedAt(w.db, id) && w.db.attempts[id].skill == A.Apply(w, e).db.attempts[id].skill
  {
    AssessmentTheorems.SubmitStep(w, e, id);
    A.StepKeeps(w, e);
    if id in w.db.attempts { assert RowEvolves(w.db, A.Apply(w, e).db, id); }
  }

  lemma BaseKeepsMade(w: World, e: A.Event)
    requires Inv(w) && !e.SubmitEvaluation?
    ensures forall id | id in w.made :: MadeOk(A.Apply(w.a, e).db, id, w.made[id])
    ensures AllMade(w.(a := A.Apply(w.a, e)))
  {
    A.StepKeeps(w.a, e);
    var d := A.Apply(w.a, e).db;
    forall id | id in w.made ensures MadeOk(d, id, w.made[id]) { MadeStays(w.a.db, d, id, w.made[id]); }
    forall id | id in d.attempts && d.attempts[id].status.Submitted? && d.attempts[id].skill.Assessed() ensures id in w.made {
      OnlySubmissionsSubmit(w.a, e, id);
    }
  }

  lemma RequeueIsOne(w: World, e: A.Event, id: Uuid)
    ensures AssessmentTheorems.IsRequeueOf(w.a, e, id) <==> Requeues(w, e) && e.id == id
  {}

  /** What a step of the assessment protocol has to keep of `a`, its attempts aside. */
  ghost predicate Sound(w: World, a: A.World)
  {
    && A.WorldOk(a) && AllMade(w.(a := a))
    && forall id | id in w.made :: MadeOk(a.db, id, w.made[id])
  }

  lemma RequeuedNotes(w: World, id: Uuid, again: bool, a: A.World, m: Notes)
    requires NotesOk(w, m) && HeardOk(w.t.tables, m)
    ensures NotesOk(Requeued(w, id, again, a), m) && HeardOk(Requeued(w, id, again, a).t.tables, m)
  {
    NotesStay(w, Requeued(w, id, again, a), m);
    HeardStays(w.t, T.Retry(id), m);
  }

  lemma RequeuedKeeps(w: World, id: Uuid, again: bool, a: A.World)
    requires Inv(w) && Sound(w, a) && forall x | x != id :: KeepsHeld(w.a.db, a.db, x)
    ensures Inv(Requeued(w, id, again, a))
  {
    var w' := Requeued(w, id, again, a);
    T.StepKeeps(w.t, T.Retry(id));
    forall x ensures Held(w', x) {
      if x != id {
        assert Held(w, x);
        HeldStays(w, w', x);
      }
    }
    forall n | n in w.notes ensures NotesOk(w', w.notes[n]) && HeardOk(w'.t.tables, w.notes[n]) {
      RequeuedNotes(w, id, again, a, w.notes[n]);
    }
    forall x | x in w.made ensures HeardOk(w'.t.tables, w.made[x].notes) {
      HeardStays(w.t, T.Retry(id), w.made[x].notes);
    }
  }

  lemma MovedKeeps(w: World, a: A.World, gone: set<nat>)
    requires Inv(w) && Sound(w, a) && forall x :: KeepsHeld(w.a.db, a.db, x)
    ensures Inv(w.(a := a, notes := w.notes - gone))
  {
    var w' := w.(a := a, notes := w.notes - gone);
    forall x ensures Held(w', x) {
      assert Held(w, x);
      HeldStays(w, w', x);
    }
    forall n | n in w'.notes ensures NotesOk(w', w'.notes[n]) && HeardOk(w'.t.tables, w'.notes[n]) {
      NotesStay(w, w', w.notes[n]);
    }
  }

  lemma AssessIsSound(w: World, e: A.Event)
    requires Inv(w) && !e.SubmitEvaluation?
    ensures Sound(w, A.Apply(w.a, e))
    ensures forall x | !(Requeues(w, e) && e.id == x) :: KeepsHeld(w.a.db, A.Apply(w.a, e).db, x)
  {
    A.StepKeeps(w.a, e);
    BaseKeepsMade(w, e);
    forall x | !(Requeues(w, e) && e.id == x) ensures KeepsHeld(w.a.db, A.Apply(w.a, e).db, x) {
      RequeueIsOne(w, e, x);
      StepKeepsHeld(w.a, e, x);
    }
  }

  lemma AssessKeeps(w: World, e: A.Event)
    requires Inv(w) && !e.SubmitEvaluation?
    ensures Inv(AssessStep(w, e))
  {
    var a := A.Apply(w.a, e);
    AssessIsSound(w, e);
    if Requeues(w, e) {
      RequeuedKeeps(w, e.id, e.RetryAssessment? && w.a.db.attempts[e.id].skill.Speaking?, a);
    } else if e.ReadAttempt? && A.WorkerAt(w.a, e.worker).Claimed? {
      MovedKeeps(w, a, {e.worker});
    } else {
      MovedKeeps(w, a, {});
      assert w.notes - {} == w.notes;
    }
  }

  lemma TranscribeKeeps(w: World, e: T.Event)
    requires Inv(w)
    ensures Inv(w.(t := T.Apply(w.t, e)))
  {
    var w' := w.(t := T.Apply(w.t, e));
    T.StepKeeps(w.t, e);
    forall id ensures Held(w', id) { assert Held(w, id); }
    forall n | n in w'.notes ensures NotesOk(w', w'.notes[n]) && HeardOk(w'.t.tables, w'.notes[n]) {
      assert NotesOk(w, w.notes[n]);
      HeardStays(w.t, e, w.notes[n]);
    }
    forall id | id in w.made ensures HeardOk(w'.t.tables, w.made[id].notes) { HeardStays(w.t, e, w.made[id].notes); }
  }

  lemma NotesMove(w: World, n: nat, m: Notes)
    requires Inv(w) && NotesOk(w, m) && HeardOk(w.t.tables, m)
    ensures Inv(w.(notes := w.notes[n := m]))
  {
    var w' := w.(notes := w.notes[n := m]);
    forall id ensures Held(w', id) { assert Held(w, id); }
    forall k | k in w'.notes ensures NotesOk(w', w'.notes[k]) && HeardOk(w'.t.tables, w'.notes[k]) {
      if k != n { assert NotesOk(w, w.notes[k]); }
    }
  }

  lemma ListedIsOk(w: World, id: Uuid)
    requires Inv(w) && id in w.a.db.attempts
    ensures var round := if w.a.db.attempts[id].status.Processing? then Some(Round(w, id)) else None;
            NotesOk(w, Notes(id, RowsOf(w.a.db.answers, id), false, map[], map[], round))
  {
    assert Held(w, id);
  }

  lemma RecordedIsOk(w: World, m: Notes)
    requires Inv(w)
    ensures HeardOk(w.t.tables, m.(recordings := RecordingsOf(w.t.tables.recordings, m.attempt), rows := w.t.tables.rows))
  {
    forall x | x in w.t.tables.rows ensures T.RowOk(w.t.tables, x) {}
  }

  lemma ListKeeps(w: World, e: Event)
    requires Inv(w) && (e.ListAnswers? || e.ListRecordings?)
    ensures Inv(Apply(w, e))
  {
    var k := A.WorkerAt(w.a, e.worker);
    var w' := Apply(w, e);
    if w' != w {
      if e.ListAnswers? {
        ListedIsOk(w, k.id);
      } else {
        assert NotesOk(w, w.notes[e.worker]);
        RecordedIsOk(w, w.notes[e.worker]);
      }
      NotesMove(w, e.worker, w'.notes[e.worker]);
    }
  }

  lemma SubmitsByTx(w: World, e: Event)
    requires e.Submit? && CanSubmit(w, e.worker, e.parts)
    ensures A.Apply(w.a, SubmitEvent(w, e)).db == SubmitTx(w.a.db, ResultOf(w, e)).0
  {}

  lemma SubmitsDone(w: World, e: Event)
    requires Inv(w) && e.Submit? && CanSubmit(w, e.worker, e.parts)
    ensures Submits(w, e) <==> SubmitTx(w.a.db, ResultOf(w, e)).1 == Done
    ensures A.IsAssessed(w.a.db, w.notes[e.worker].attempt)
  {
    var k := A.WorkerAt(w.a, e.worker);
    assert A.WorkerOk(w.a.db, k);
    assert RowOk(w.a.db, k.id);
  }

  lemma TxMakes(d: Db, m: Made, r: SubmitResult)
    requires SubmitTx(d, r).1 == Done && r.attempt == m.notes.attempt && A.IsAssessed(d, r.attempt)
    requires (forall q | q in m.parts :: TextOf(m.notes, q).Some?) && r.answers == Graded(m.notes, m.parts)
    ensures MadeOk(SubmitTx(d, r).0, r.attempt, m)
  {
    forall q | q in m.parts
      ensures var d' := SubmitTx(d, r).0;
              (r.attempt, q) in d'.answers && d'.answers[(r.attempt, q)] == TextOf(m.notes, q).value
    {
      GradedIsStored(d.answers, m.notes, m.parts, q);
    }
  }

  lemma SubmitMakes(w: World, e: Event)
    requires Inv(w) && Submits(w, e)
    ensures MadeOk(A.Apply(w.a, SubmitEvent(w, e)).db, w.notes[e.worker].attempt, Made(w.notes[e.worker], e.parts))
  {
    SubmitsByTx(w, e);
    SubmitsDone(w, e);
    TxMakes(w.a.db, Made(w.notes[e.worker], e.parts), ResultOf(w, e));
  }

  /** Of two submissions for one attempt only the first takes effect. */
  lemma MadeOnce(w: World, e: Event)
    requires Inv(w) && Submits(w, e)
    ensures forall id | id in w.made :: id != w.notes[e.worker].attempt
  {
    forall id | id in w.made ensures id != w.notes[e.worker].attempt { assert MadeOk(w.a.db, id, w.made[id]); }
  }

  lemma TxSubmits(d: Db, r: SubmitResult, id: Uuid)
    requires AssessmentTheorems.SubmittedAt(SubmitTx(d, r).0, id) && !AssessmentTheorems.SubmittedAt(d, id)
    ensures SubmitTx(d, r).1 == Done && id == r.attempt
  {}

  lemma SubmitKeepsAllMade(w: World, e: Event)
    requires Inv(w) && e.Submit? && CanSubmit(w, e.worker, e.parts)
    ensures AllMade(Apply(w, e))
  {
    var d := A.Apply(w.a, SubmitEvent(w, e)).db;
    SubmitsByTx(w, e);
    SubmitsDone(w, e);
    A.StepKeeps(w.a, SubmitEvent(w, e));
    forall id | id in d.attempts && d.attempts[id].status.Submitted? && d.attempts[id].skill.Assessed()
      ensures id in Apply(w, e).made
    {
      if AssessmentTheorems.SubmittedAt(w.a.db, id) {
        assert RowEvolves(w.a.db, d, id);
      } else {
        TxSubmits(w.a.db, ResultOf(w, e), id);
      }
    }
  }

  /** The step of a submission, with what is recorded of it. */
  function Recorded(w: World, a: A.World, made: map<Uuid, Made>): World { w.(a := a, made := made) }

  lemma RecordedKeeps(w: World, a: A.World, made: map<Uuid, Made>)
    requires Inv(w) && A.WorldOk(a) && AllMade(Recorded(w, a, made))
    requires forall x :: KeepsHeld(w.a.db, a.db, x)
    requires forall id | id in made :: MadeOk(a.db, id, made[id]) && HeardOk(w.t.tables, made[id].notes)
    ensures Inv(Recorded(w, a, made))
  {
    var w' := Recorded(w, a, made);
    forall id ensures Held(w', id) {
      assert Held(w, id);
      HeldStays(w, w', id);
    }
    forall n | n in w'.notes ensures NotesOk(w', w'.notes[n]) { NotesStay(w, w', w.notes[n]); }
  }

  lemma SubmitKeepsInv(w: World, e: Event)
    requires Inv(w) && e.Submit? && CanSubmit(w, e.worker, e.parts)
    ensures Inv(Apply(w, e))
  {
    var b := SubmitEvent(w, e);
    var a, made := A.Apply(w.a, b), Apply(w, e).made;
    A.StepKeeps(w.a, b);
    SubmitKeepsAllMade(w, e);
    forall x ensures KeepsHeld(w.a.db, a.db, x) { StepKeepsHeld(w.a, b, x); }
    if Submits(w, e) { SubmitMakes(w, e); }
    forall id | id in made ensures MadeOk(a.db, id, made[id]) && HeardOk(w.t.tables, made[id].notes) {
      if !(Submits(w, e) && id == w.notes[e.worker].attempt) { MadeStays(w.a.db, a.db, id, w.made[id]); }
    }
    RecordedKeeps(w, a, made);
  }

  lemma StepKeeps(w: World, e: Event)
    requires Inv(w)
    ensures Inv(Apply(w, e))
  {
    match e {
      case Assess(step) => if !step.SubmitEvaluation? { AssessKeeps(w, step); }
      case Transcribe(move) => if !move.Retry? { TranscribeKeeps(w, move); }
      case ListAnswers(_) => ListKeeps(w, e);
      case ListRecordings(_) => ListKeeps(w, e);
      case Submit(n, parts, _, _, _) => if CanSubmit(w, n, parts) { SubmitKeepsInv(w, e); }
    }
  }

  lemma {:induction false} RunKeeps(es: seq<Event>)
    ensures Inv(Run(START, es))
  {
    if es != [] {
      RunKeeps(es[..|es| - 1]);
      StepKeeps(Run(START, es[..|es| - 1]), es[|es| - 1]);
    }
  }

  // ---- The stored answers are the evaluated ones. ----

  lemma MadeOnlyGrows(w: World, e: Event)
    requires Inv(w)
    ensures forall id | id in w.made :: id in Apply(w, e).made && Apply(w, e).made[id] == w.made[id]
  {
    if Submits(w, e) {
      MadeOnce(w, e);
    } else {
      OnlySubmissionsMake(w, e);
    }
  }

  lemma OnlySubmissionsMake(w: World, e: Event)
    requires !Submits(w, e)
    ensures Apply(w, e).made == w.made
  {
    if e.Assess? { assert AssessStep(w, e.step).made == w.made; }
  }

  lemma RunOneMore(es: seq<Event>, later: seq<Event>)
    requires later != []
    ensures Run(START, es + later) == Apply(Run(START, es + later[..|later| - 1]), later[|later| - 1])
  {
    assert (es + later)[..|es + later| - 1] == es + later[..|later| - 1];
  }

  lemma {:induction false} MadeStaysMade(es: seq<Event>, later: seq<Event>, id: Uuid)
    requires id in Run(START, es).made
    ensures id in Run(START, es + later).made && Run(START, es + later).made[id] == Run(START, es).made[id]
  {
    if later == [] {
      assert es + later == es;
    } else {
      MadeStaysMade(es, later[..|later| - 1], id);
      RunKeeps(es + later[..|later| - 1]);
      MadeOnlyGrows(Run(START, es + later[..|later| - 1]), later[|later| - 1]);
      RunOneMore(es, later);
    }
  }

  /** After any run there is a record of what was evaluated exactly for the attempts that have an evaluation. */
  lemma EvaluationsAreMade(es: seq<Event>, id: Uuid)
    ensures id in Run(START, es).a.db.evaluations <==> id in Run(START, es).made
  {
    var w := Run(START, es);
    RunKeeps(es);
    if id in w.made { assert MadeOk(w.a.db, id, w.made[id]); }
    if id in w.a.db.attempts { assert RowOk(w.a.db, id); }
  }

  /**
   However stale the worker was, what a student sees stored for a task or part of an evaluated attempt is the very text
   that was evaluated, from the submission on and for ever.
   */
  lemma EvaluatedIsStored(es: seq<Event>, later: seq<Event>, id: Uuid, q: Uuid)
    requires id in Run(START, es).made && q in Run(START, es).made[id].parts
    ensures var m, d := Run(START, es).made[id].notes, Run(START, es + later).a.db;
            && AssessmentTheorems.SubmittedAt(d, id)
            && TextOf(m, q).Some? && (id, q) in d.answers && d.answers[(id, q)] == TextOf(m, q).value
  {
    MadeStaysMade(es, later, id);
    RunKeeps(es + later);
    assert MadeOk(Run(START, es + later).a.db, id, Run(START, es).made[id]);
  }

  // ---- Whether an evaluation belongs to what was queued. ----

  /** An attempt that is being processed holds exactly what it held when it was queued last. */
  lemma ProcessingHolds(es: seq<Event>, id: Uuid)
    requires id in Run(START, es).a.db.attempts && Run(START, es).a.db.attempts[id].status.Processing?
    ensures var w := Run(START, es); id in w.queued && SameRows(w.a.db.answers, w.queued[id], id)
  {
    RunKeeps(es);
    assert Held(Run(START, es), id);
  }

  /** For every task or part answered in writing, the text in the notes is the one in these answers. */
  ghost predicate Agrees(m: Notes, parts: seq<Uuid>, answers: Answers)
  {
    forall q | q in parts && (m.attempt, q) !in m.recordings ::
      (m.attempt, q) in answers && TextOf(m, q) == Some(Trim(answers[(m.attempt, q)]))
  }

  /**
   A submission for an attempt that is being processed is made from what was queued last if and only if its texts still
   agree with the stored answers, which the worker could look up again before it submits.
   */
  lemma BelongsIfStillThere(es: seq<Event>, e: Event)
    requires Submits(Run(START, es), e)
    requires Run(START, es).a.db.attempts[Run(START, es).notes[e.worker].attempt].status.Processing?
    ensures var w := Run(START, es); var m := w.notes[e.worker];
            m.attempt in w.queued && (Agrees(m, e.parts, w.queued[m.attempt]) <==> Agrees(m, e.parts, w.a.db.answers))
  {
    ProcessingHolds(es, Run(START, es).notes[e.worker].attempt);
  }

  /** In particular when the attempt was being processed as the worker read it, and has not been queued again since. */
  lemma BelongsIfNotRequeued(es: seq<Event>, e: Event)
    requires Submits(Run(START, es), e)
    requires var w := Run(START, es); w.notes[e.worker].round == Some(Round(w, w.notes[e.worker].attempt))
    ensures var w := Run(START, es); var m := w.notes[e.worker];
            m.attempt in w.queued && Agrees(m, e.parts, w.queued[m.attempt])
  {
    var w := Run(START, es);
    var m := w.notes[e.worker];
    RunKeeps(es);
    assert NotesOk(w, m);
    forall q | q in e.parts && (m.attempt, q) !in m.recordings
      ensures (m.attempt, q) in w.queued[m.attempt] && TextOf(m, q) == Some(Trim(w.queued[m.attempt][(m.attempt, q)]))
    {
      assert TextOf(m, q).Some?;
    }
  }

  /**
   A spoken part that was evaluated is the transcript of the audio its notes name, and that recording is the one the
   student has now exactly when nothing was uploaded for the part since.
   */
  lemma SpokenIsOfAudio(es: seq<Event>, id: Uuid, q: Uuid)
    requires var w := Run(START, es); id in w.made && q in w.made[id].parts && (id, q) in w.made[id].notes.recordings
    ensures var w := Run(START, es); var m, x := w.made[id].notes, (id, q);
            && x in m.rows && m.rows[x].transcript.Some? && TextOf(m, q) == Some(Trim(m.rows[x].transcript.value.text))
            && m.rows[x].transcript.value.audio == m.recordings[x].key
            && x in w.t.tables.recordings && m.recordings[x].revision <= w.t.tables.recordings[x].revision
            && (m.recordings[x] == w.t.tables.recordings[x] <==> m.recordings[x].revision == w.t.tables.recordings[x].revision)
  {
    var w := Run(START, es);
    RunKeeps(es);
    var m := w.made[id];
    assert MadeOk(w.a.db, id, m) && HeardOk(w.t.tables, m.notes);
    assert TextOf(m.notes, q).Some?;
  }
}
