/**
 Every actor on the attempt tables, interleaved by an adversarial scheduler: students, browser tabs that
 advance a mock in separate reads and writes, and workers that may stall at any point and go on later.
 A worker follows the assessment loop of the writing and speaking pipelines one database call at a time.
 */
module AssessmentProtocol {
  import opened Common
  import opened AssessmentRows
  import opened AssessmentInvariants
  import opened FullMockRows

  /** Where a worker stands between two of its database calls. */
  datatype Worker =
    | Idle
    | Claimed(id: Uuid)
    | Evaluating(id: Uuid, user: Uuid, skill: Skill)
    | Completing(id: Uuid)
    | Failing(id: Uuid)
    | Deferring(id: Uuid)

  /** Where a browser tab stands inside an advance. */
  datatype Tab =
    | Browsing
    | Looking(session: Uuid, current: nat)
    | Advancing(session: Uuid, next: nat)
    | Finishing(session: Uuid)

  datatype World = World(
    db: Db, sessions: map<Uuid, Session>, workers: map<nat, Worker>, tabs: map<nat, Tab>, now: int)

  datatype ReadOutcome = Proceed | ReadFailed | NotTranscribed

  datatype Event =
    | StartPractice(id: Uuid, user: Uuid, skill: Skill)
    | StartSession(session: Uuid, user: Uuid, sections: seq<Uuid>)
    | SaveAnswers(id: Uuid, input: seq<AnswerInput>)
    | GradeObjective(id: Uuid, input: seq<AnswerInput>, grade: Grade)
    | QueueAssessment(id: Uuid, input: seq<AnswerInput>)
    | RetryAssessment(id: Uuid)
    | Claim(worker: nat, id: Uuid)
    | ReadAttempt(worker: nat, outcome: ReadOutcome)
    | EvaluationFailed(worker: nat)
    | SubmitEvaluation(worker: nat, input: seq<AnswerInput>, grade: Grade, text: string, acknowledged: bool)
    | Complete(worker: nat)
    | ReportFailure(worker: nat)
    | Defer(worker: nat)
    | Renew(worker: nat)
    | LateRenew(id: Uuid)
    | Crash(worker: nat)
    | Recover(skill: Skill)
    | AbandonSection(id: Uuid)
    | LookAtSession(tab: nat, session: Uuid)
    | CheckSection(tab: nat)
    | CommitAdvance(tab: nat)
    | FinishSession(session: Uuid)
    | AbandonSession(session: Uuid)
    | Tick(elapsed: nat)

  function WorkerAt(w: World, k: nat): Worker { if k in w.workers then w.workers[k] else Idle }
  function TabAt(w: World, k: nat): Tab { if k in w.tabs then w.tabs[k] else Browsing }

  function NewAttempt(user: Uuid, skill: Skill): Attempt { Attempt(user, skill, InProgress, None) }

  predicate FreshSections(w: World, ids: seq<Uuid>)
  {
    |ids| == 4 && (forall i | 0 <= i < 4 :: ids[i] !in w.db.attempts)
    && (forall i, j | 0 <= i < j < 4 :: ids[i] != ids[j])
  }

  function StartSessionStep(w: World, sid: Uuid, user: Uuid, ids: seq<Uuid>): World
  {
    if sid !in w.sessions && FreshSections(w, ids) then
      w.(sessions := w.sessions[sid := Session(user, SessionInProgress, 1, ids)],
         db := w.db.(attempts := w.db.attempts[ids[0] := NewAttempt(user, Listening)][ids[1] := NewAttempt(user, Reading)]
                                              [ids[2] := NewAttempt(user, Writing)][ids[3] := NewAttempt(user, Speaking)]))
    else w
  }

  /** The worker has read the attempt row; a submitted attempt only needs its job completed. */
  function AfterRead(d: Db, id: Uuid, outcome: ReadOutcome): Worker
  {
    if id !in d.attempts then Failing(id)
    else if d.attempts[id].status.Submitted? then Completing(id)
    else
      match outcome
      case Proceed => Evaluating(id, d.attempts[id].user, d.attempts[id].skill)
      case ReadFailed => Failing(id)
      case NotTranscribed => if d.attempts[id].skill.Speaking? then Deferring(id) else Failing(id)
  }

  /** A submission that commits without the worker learning of it is reported as a failure. */
  function WorkerStep(w: World, e: Event): World
    requires e.ReadAttempt? || e.EvaluationFailed? || e.SubmitEvaluation? || e.Complete? || e.ReportFailure?
             || e.Defer? || e.Renew? || e.Crash?
  {
    var k := WorkerAt(w, e.worker);
    match e
    case ReadAttempt(n, outcome) =>
      if k.Claimed? then w.(workers := w.workers[n := AfterRead(w.db, k.id, outcome)]) else w
    case EvaluationFailed(n) =>
      if k.Evaluating? then w.(workers := w.workers[n := Failing(k.id)]) else w
    case SubmitEvaluation(n, input, grade, text, acknowledged) =>
      if k.Evaluating? then
        var (d, o) := SubmitTx(w.db, SubmitResult(k.id, k.user, k.skill, input, grade, Some(text)));
        w.(db := d, workers := w.workers[n := if o == Done && acknowledged then Completing(k.id) else Failing(k.id)])
      else w
    case Complete(n) =>
      if k.Completing? then w.(db := CompleteTx(w.db, k.id, w.now), workers := w.workers[n := Idle]) else w
    case ReportFailure(n) =>
      if k.Failing? then w.(db := FailTx(w.db, k.id, w.now), workers := w.workers[n := Idle]) else w
    case Defer(n) =>
      if k.Deferring? then w.(db := DeferTx(w.db, k.id, w.now), workers := w.workers[n := Idle]) else w
    case Renew(n) =>
      if k.Idle? then w else w.(db := RenewTx(w.db, k.id, w.now))
    case Crash(n) => w.(workers := w.workers[n := Idle])
  }

  predicate CheckedOut(d: Db, id: Uuid) { id in d.attempts && !d.attempts[id].status.InProgress? }

  /** What an advance from the last section looks for before it tries to finish. */
  predicate SeemsPending(d: Db, s: Session)
  {
    exists id | id in s.sections ::
      id in d.attempts
      && (d.attempts[id].status.Processing?
          || (d.attempts[id].status.InProgress? && d.attempts[id].skill.Assessed() && d.Blocks(id)))
  }

  function TabStep(w: World, e: Event): World
    requires e.LookAtSession? || e.CheckSection? || e.CommitAdvance?
  {
    var t := TabAt(w, e.tab);
    match e
    case LookAtSession(n, sid) =>
      if sid in w.sessions && w.sessions[sid].status.SessionInProgress? then
        w.(tabs := w.tabs[n := Looking(sid, w.sessions[sid].current)])
      else w
    case CheckSection(n) =>
      if t.Looking? && t.session in w.sessions then
        var s := w.sessions[t.session];
        var next :=
          if t.current < 1 || t.current > |s.sections| || !CheckedOut(w.db, s.sections[t.current - 1]) then Browsing
          else if t.current < |s.sections| then Advancing(t.session, t.current + 1)
          else if SeemsPending(w.db, s) then Browsing
          else Finishing(t.session);
        w.(tabs := w.tabs[n := next])
      else w
    case CommitAdvance(n) =>
      if t.Advancing? && t.session in w.sessions then
        w.(sessions := w.sessions[t.session := AdvanceTx(w.sessions[t.session], t.next).0], tabs := w.tabs[n := Browsing])
      else if t.Finishing? then FinishStep(w, t.session).(tabs := w.tabs[n := Browsing])
      else w
  }

  function FinishStep(w: World, sid: Uuid): World
  {
    if sid in w.sessions then
      var (d, s, _) := FinishTx(w.db, w.sessions[sid]);
      w.(db := d, sessions := w.sessions[sid := s])
    else w
  }

  function AbandonStep(w: World, sid: Uuid): World
  {
    if sid in w.sessions then
      var (d, s, _) := AbandonSessionTx(w.db, w.sessions[sid]);
      w.(db := d, sessions := w.sessions[sid := s])
    else w
  }

  predicate IsAssessed(d: Db, id: Uuid) { id in d.attempts && d.attempts[id].skill.Assessed() }

  /**
   One atomic step. An event that is not enabled leaves the world as it is. A heartbeat sent before its worker
   was done with a job may reach the table at any later time.
   */
  function Apply(w: World, e: Event): World
  {
    match e
    case StartPractice(id, user, skill) =>
      if id in w.db.attempts then w
      else w.(db := w.db.(attempts := w.db.attempts[id := NewAttempt(user, skill)]))
    case StartSession(sid, user, ids) => StartSessionStep(w, sid, user, ids)
    case SaveAnswers(id, input) => w.(db := SaveAnswersTx(w.db, id, input).0)
    case GradeObjective(id, input, grade) =>
      if id in w.db.attempts && !w.db.attempts[id].skill.Assessed() then
        var a := w.db.attempts[id];
        w.(db := SubmitTx(w.db, SubmitResult(id, a.user, a.skill, input, grade, None)).0)
      else w
    case QueueAssessment(id, input) =>
      if IsAssessed(w.db, id) then w.(db := QueueTx(w.db, id, input, w.now).0) else w
    case RetryAssessment(id) => w.(db := RetryTx(w.db, id, w.now).0)
    case Claim(n, id) =>
      if WorkerAt(w, n).Idle? && Claimable(w.db, id, w.now) then
        w.(db := ClaimTx(w.db, id, w.now).0, workers := w.workers[n := Claimed(id)])
      else w
    case Recover(skill) => w.(db := RecoverTx(w.db, skill, w.now))
    case LateRenew(id) => w.(db := RenewTx(w.db, id, w.now))
    case AbandonSection(id) => w.(db := AbandonTx(w.db, [id]))
    case LookAtSession(_, _) => TabStep(w, e)
    case CheckSection(_) => TabStep(w, e)
    case CommitAdvance(_) => TabStep(w, e)
    case FinishSession(sid) => FinishStep(w, sid)
    case AbandonSession(sid) => AbandonStep(w, sid)
    case Tick(elapsed) => w.(now := w.now + elapsed)
    case _ => WorkerStep(w, e)
  }

  function Run(w: World, es: seq<Event>): World
  {
    if es == [] then w else Apply(Run(w, es[..|es| - 1]), es[|es| - 1])
  }

  const START := World(Db(map[], map[], map[], map[], map[]), map[], map[], map[], 0)

  // ---- The invariant. ----

  ghost predicate WorkerOk(d: Db, k: Worker)
  {
    match k
    case Idle => true
    case Evaluating(id, user, skill) => IsAssessed(d, id) && d.attempts[id].user == user && d.attempts[id].skill == skill
    case Completing(id) => IsAssessed(d, id) && d.attempts[id].status.Submitted?
    case _ => IsAssessed(d, k.id)
  }

  ghost predicate SessionOk(d: Db, s: Session)
  {
    && |s.sections| == 4
    && (forall id | id in s.sections :: id in d.attempts)
    && (s.status.SessionInProgress? ==>
          1 <= s.current <= 4 && forall i | 0 <= i < s.current - 1 :: Passed(d, s.sections[i]))
    && (s.status.SessionSubmitted? ==> forall id | id in s.sections :: Settled(d, id))
  }

  ghost predicate TabOk(w: World, t: Tab)
  {
    match t
    case Browsing => true
    case Looking(sid, current) => sid in w.sessions
    case Advancing(sid, next) =>
      sid in w.sessions && 2 <= next <= 4 && |w.sessions[sid].sections| == 4 && Passed(w.db, w.sessions[sid].sections[next - 2])
    case Finishing(sid) => sid in w.sessions
  }

  ghost predicate WorldOk(w: World)
  {
    && DbOk(w.db)
    && (forall n | n in w.workers :: WorkerOk(w.db, w.workers[n]))
    && (forall sid | sid in w.sessions :: SessionOk(w.db, w.sessions[sid]))
    && (forall n | n in w.tabs :: TabOk(w, w.tabs[n]))
  }

  /** A database step that only evolves rows keeps what workers, sessions and tabs rely on. */
  lemma EvolvingKeeps(w: World, d: Db)
    requires WorldOk(w) && DbOk(d) && Evolves(w.db, d)
    ensures WorldOk(w.(db := d))
  {
    var w' := w.(db := d);
    forall n | n in w'.workers ensures WorkerOk(d, w'.workers[n]) {
      assert WorkerOk(w.db, w.workers[n]);
      if !w.workers[n].Idle? { assert RowEvolves(w.db, d, w.workers[n].id); }
    }
    forall sid | sid in w'.sessions ensures SessionOk(d, w'.sessions[sid]) {
      var s := w.sessions[sid];
      assert SessionOk(w.db, s);
      forall id | id in s.sections ensures RowEvolves(w.db, d, id) {}
      if s.status.SessionInProgress? {
        forall i | 0 <= i < s.current - 1 ensures Passed(d, s.sections[i]) {
          assert Passed(w.db, s.sections[i]) && RowEvolves(w.db, d, s.sections[i]);
        }
      }
    }
    forall n | n in w'.tabs ensures TabOk(w', w'.tabs[n]) {
      assert TabOk(w, w.tabs[n]);
      var t := w.tabs[n];
      if t.Advancing? { assert RowEvolves(w.db, d, w.sessions[t.session].sections[t.next - 2]); }
    }
  }

  lemma WorkerMoves(w: World, n: nat, k: Worker)
    requires WorldOk(w) && WorkerOk(w.db, k)
    ensures WorldOk(w.(workers := w.workers[n := k]))
  {
    var w' := w.(workers := w.workers[n := k]);
    forall m | m in w'.tabs ensures TabOk(w', w'.tabs[m]) { assert TabOk(w, w.tabs[m]); }
  }

  lemma TabMoves(w: World, n: nat, t: Tab)
    requires WorldOk(w) && TabOk(w, t)
    ensures WorldOk(w.(tabs := w.tabs[n := t]))
  {
    var w' := w.(tabs := w.tabs[n := t]);
    forall m | m in w'.tabs ensures TabOk(w', w'.tabs[m]) {
      assert m != n ==> TabOk(w, w.tabs[m]);
    }
  }

  lemma SessionMoves(w: World, sid: Uuid, s: Session)
    requires WorldOk(w) && SessionOk(w.db, s)
    requires sid in w.sessions ==> s.sections == w.sessions[sid].sections
    ensures WorldOk(w.(sessions := w.sessions[sid := s]))
  {
    var w' := w.(sessions := w.sessions[sid := s]);
    forall m | m in w'.tabs ensures TabOk(w', w'.tabs[m]) { assert TabOk(w, w.tabs[m]); }
  }

  /** New rows in progress, for ids the table does not hold yet. */
  lemma CreationKeeps(d: Db, attempts: map<Uuid, Attempt>)
    requires DbOk(d)
    requires forall id | id in d.attempts :: id in attempts && attempts[id] == d.attempts[id]
    requires forall id | id in attempts && id !in d.attempts :: attempts[id].status.InProgress? && attempts[id].grade.None?
    ensures DbOk(d.(attempts := attempts)) && Evolves(d, d.(attempts := attempts))
    ensures SameLedger(d, d.(attempts := attempts))
  {
    var d' := d.(attempts := attempts);
    forall id | id in d'.attempts ensures RowOk(d', id) {
      if id in d.attempts { assert RowOk(d, id); }
    }
    forall skill: Skill ensures SubmittedIds(d', skill) == SubmittedIds(d, skill) {}
  }

  lemma StartSessionKeeps(w: World, sid: Uuid, user: Uuid, ids: seq<Uuid>)
    requires WorldOk(w)
    ensures var w' := StartSessionStep(w, sid, user, ids); WorldOk(w') && Evolves(w.db, w'.db) && SameLedger(w.db, w'.db)
  {
    var w' := StartSessionStep(w, sid, user, ids);
    EvolvesReflexive(w.db);
    if w' != w {
      CreationKeeps(w.db, w'.db.attempts);
      EvolvingKeeps(w, w'.db);
      SessionMoves(w.(db := w'.db), sid, w'.sessions[sid]);
    }
  }

  lemma AbandonLedger(d: Db, ids: seq<Uuid>)
    ensures SameLedger(d, AbandonTx(d, ids))
  {
    forall skill: Skill ensures SubmittedIds(AbandonTx(d, ids), skill) == SubmittedIds(d, skill) {}
  }

  lemma FinishKeeps(w: World, sid: Uuid)
    requires WorldOk(w)
    ensures var w' := FinishStep(w, sid); WorldOk(w') && Evolves(w.db, w'.db) && SameLedger(w.db, w'.db)
  {
    var w' := FinishStep(w, sid);
    EvolvesReflexive(w.db);
    if sid in w.sessions {
      var s := w.sessions[sid];
      assert SessionOk(w.db, s);
      if FinishTx(w.db, s).2.Moved? {
        AbandonKeeps(w.db, s.sections);
        AbandonLedger(w.db, s.sections);
        EvolvingKeeps(w, w'.db);
        forall id | id in s.sections ensures Settled(w'.db, id) {
          assert !(w.db.attempts[id].status.Processing? || w.db.Blocks(id));
        }
        SessionMoves(w.(db := w'.db), sid, w'.sessions[sid]);
      } else {
        assert w.sessions[sid := s] == w.sessions;
      }
    }
  }

  lemma AbandonSessionKeeps(w: World, sid: Uuid)
    requires WorldOk(w)
    ensures var w' := AbandonStep(w, sid); WorldOk(w') && Evolves(w.db, w'.db) && SameLedger(w.db, w'.db)
  {
    var w' := AbandonStep(w, sid);
    EvolvesReflexive(w.db);
    if sid in w.sessions {
      var s := w.sessions[sid];
      assert SessionOk(w.db, s);
      if s.status.SessionInProgress? {
        AbandonKeeps(w.db, s.sections);
        AbandonLedger(w.db, s.sections);
        EvolvingKeeps(w, w'.db);
        assert SessionOk(w'.db, s);
        SessionMoves(w.(db := w'.db), sid, w'.sessions[sid]);
      } else {
        assert w.sessions[sid := s] == w.sessions;
      }
    }
  }

  lemma TabStepKeeps(w: World, e: Event)
    requires WorldOk(w) && (e.LookAtSession? || e.CheckSection? || e.CommitAdvance?)
    ensures var w' := TabStep(w, e); WorldOk(w') && Evolves(w.db, w'.db) && SameLedger(w.db, w'.db)
  {
    EvolvesReflexive(w.db);
    var t := TabAt(w, e.tab);
    if e.tab in w.tabs { assert TabOk(w, t); }
    match e
    case LookAtSession(n, sid) =>
      if sid in w.sessions { TabMoves(w, n, Looking(sid, w.sessions[sid].current)); }
    case CheckSection(n) =>
      if t.Looking? && t.session in w.sessions {
        assert SessionOk(w.db, w.sessions[t.session]);
        TabMoves(w, n, TabStep(w, e).tabs[n]);
      }
    case CommitAdvance(n) =>
      if t.Advancing? {
        var s := w.sessions[t.session];
        assert SessionOk(w.db, s);
        TabMoves(w, n, Browsing);
        SessionMoves(w.(tabs := w.tabs[n := Browsing]), t.session, AdvanceTx(s, t.next).0);
      } else if t.Finishing? {
        FinishKeeps(w, t.session);
        TabMoves(FinishStep(w, t.session), n, Browsing);
      }
  }

  ghost predicate IsWorkerEvent(e: Event)
  {
    e.ReadAttempt? || e.EvaluationFailed? || e.SubmitEvaluation? || e.Complete? || e.ReportFailure?
    || e.Defer? || e.Renew? || e.Crash?
  }

  /** A database step together with a move of one worker. */
  lemma WorkerActs(w: World, d: Db, n: nat, k: Worker)
    requires WorldOk(w) && DbOk(d) && Evolves(w.db, d) && WorkerOk(d, k)
    ensures WorldOk(w.(db := d, workers := w.workers[n := k]))
  {
    EvolvingKeeps(w, d);
    WorkerMoves(w.(db := d), n, k);
  }

  ghost predicate Keeps(w: World, w': World)
  {
    WorldOk(w') && Evolves(w.db, w'.db) && (Balanced(w.db) ==> Balanced(w'.db))
  }

  lemma SubmitEvaluationKeeps(w: World, e: Event)
    requires WorldOk(w) && e.SubmitEvaluation? && WorkerAt(w, e.worker).Evaluating?
    ensures Keeps(w, WorkerStep(w, e))
  {
    var k := WorkerAt(w, e.worker);
    var w' := WorkerStep(w, e);
    assert WorkerOk(w.db, k);
    var r := SubmitResult(k.id, k.user, k.skill, e.input, e.grade, Some(e.text));
    SubmitKeeps(w.db, r);
    if Balanced(w.db) { SubmitBalances(w.db, r); }
    assert RowEvolves(w.db, w'.db, k.id);
    WorkerActs(w, w'.db, e.worker, w'.workers[e.worker]);
  }

  ghost predicate EndsJob(e: Event) { e.Complete? || e.ReportFailure? || e.Defer? || e.Renew? }

  lemma JobEndDb(w: World, e: Event)
    requires WorldOk(w) && EndsJob(e)
    ensures DbKeeps(w.db, WorkerStep(w, e).db)
  {
    var d := WorkerStep(w, e).db;
    var k := WorkerAt(w, e.worker);
    assert WorkerOk(w.db, k);
    EvolvesReflexive(w.db);
    if d != w.db {
      match e {
        case Complete(_) => CompleteKeeps(w.db, k.id, w.now);
        case ReportFailure(_) => FailKeeps(w.db, k.id, w.now);
        case Defer(_) => DeferKeeps(w.db, k.id, w.now);
        case Renew(_) => RenewKeeps(w.db, k.id, w.now);
      }
    }
  }

  /** The calls that end a worker's job: each writes one job row and, for a terminal failure, the attempt. */
  lemma JobEndKeeps(w: World, e: Event)
    requires WorldOk(w) && EndsJob(e)
    ensures Keeps(w, WorkerStep(w, e))
  {
    JobEndDb(w, e);
    var w' := WorkerStep(w, e);
    if w'.workers == w.workers {
      EvolvingKeeps(w, w'.db);
    } else {
      WorkerActs(w, w'.db, e.worker, Idle);
    }
  }

  lemma WorkerStepKeeps(w: World, e: Event)
    requires WorldOk(w) && IsWorkerEvent(e)
    ensures Keeps(w, WorkerStep(w, e))
  {
    var k := WorkerAt(w, e.worker);
    assert WorkerOk(w.db, k);
    EvolvesReflexive(w.db);
    match e
    case ReadAttempt(n, outcome) => if k.Claimed? { WorkerMoves(w, n, AfterRead(w.db, k.id, outcome)); }
    case EvaluationFailed(n) => if k.Evaluating? { WorkerMoves(w, n, Failing(k.id)); }
    case SubmitEvaluation(_, _, _, _, _) => if k.Evaluating? { SubmitEvaluationKeeps(w, e); }
    case Crash(n) => WorkerMoves(w, n, Idle);
    case _ => JobEndKeeps(w, e);
  }

  lemma SameLedgerBalances(d: Db, d': Db)
    requires SameLedger(d, d')
    ensures Balanced(d) ==> Balanced(d')
  {}

  ghost predicate IsTabEvent(e: Event) { e.LookAtSession? || e.CheckSection? || e.CommitAdvance? }

  ghost predicate IsSubmission(e: Event)
  {
    e.StartPractice? || e.SaveAnswers? || e.GradeObjective? || e.QueueAssessment? || e.RetryAssessment?
  }

  lemma GradeObjectiveDb(w: World, id: Uuid, input: seq<AnswerInput>, grade: Grade)
    requires WorldOk(w)
    ensures DbKeeps(w.db, Apply(w, GradeObjective(id, input, grade)).db)
  {
    EvolvesReflexive(w.db);
    if id in w.db.attempts && !w.db.attempts[id].skill.Assessed() {
      var r := SubmitResult(id, w.db.attempts[id].user, w.db.attempts[id].skill, input, grade, None);
      SubmitKeeps(w.db, r);
      if Balanced(w.db) { SubmitBalances(w.db, r); }
    }
  }

  lemma SubmissionDb(w: World, e: Event)
    requires WorldOk(w) && (e.SaveAnswers? || e.QueueAssessment? || e.RetryAssessment?)
    ensures DbKeeps(w.db, Apply(w, e).db)
  {
    EvolvesReflexive(w.db);
    match e {
      case SaveAnswers(id, input) => SaveAnswersKeeps(w.db, id, input);
      case RetryAssessment(id) => RetryKeeps(w.db, id, w.now);
      case QueueAssessment(id, input) => if IsAssessed(w.db, id) { QueueKeeps(w.db, id, input, w.now); }
    }
  }

  lemma SubmissionStepKeeps(w: World, e: Event)
    requires WorldOk(w) && IsSubmission(e)
    ensures Keeps(w, Apply(w, e))
  {
    var d := Apply(w, e).db;
    EvolvesReflexive(w.db);
    if e.StartPractice? {
      CreationKeeps(w.db, d.attempts);
      SameLedgerBalances(w.db, d);
    } else if e.GradeObjective? {
      GradeObjectiveDb(w, e.id, e.input, e.grade);
    } else {
      SubmissionDb(w, e);
    }
    EvolvingKeeps(w, d);
  }

  lemma ClaimStepKeeps(w: World, n: nat, id: Uuid)
    requires WorldOk(w)
    ensures Keeps(w, Apply(w, Claim(n, id)))
  {
    var w' := Apply(w, Claim(n, id));
    EvolvesReflexive(w.db);
    if w' != w {
      ClaimKeeps(w.db, id, w.now);
      assert RowOk(w.db, id);
      WorkerActs(w, w'.db, n, Claimed(id));
      JobsOnlyBalance(w.db, w'.db);
    }
  }

  lemma SweepStepKeeps(w: World, e: Event)
    requires WorldOk(w) && (e.Recover? || e.LateRenew? || e.AbandonSection?)
    ensures Keeps(w, Apply(w, e))
  {
    var d := Apply(w, e).db;
    if e.Recover? {
      RecoverKeeps(w.db, e.skill, w.now);
      JobsOnlyBalance(w.db, d);
    } else if e.LateRenew? {
      RenewKeeps(w.db, e.id, w.now);
      JobsOnlyBalance(w.db, d);
    } else {
      AbandonKeeps(w.db, [e.id]);
      AbandonLedger(w.db, [e.id]);
      SameLedgerBalances(w.db, d);
    }
    EvolvingKeeps(w, d);
  }

  lemma TickKeeps(w: World, elapsed: nat)
    requires WorldOk(w)
    ensures Keeps(w, Apply(w, Tick(elapsed)))
  {
    var w' := Apply(w, Tick(elapsed));
    EvolvesReflexive(w.db);
    forall m | m in w'.tabs ensures TabOk(w', w'.tabs[m]) { assert TabOk(w, w.tabs[m]); }
  }

  lemma SessionStepKeeps(w: World, e: Event)
    requires WorldOk(w) && (e.StartSession? || e.FinishSession? || e.AbandonSession? || IsTabEvent(e))
    ensures Keeps(w, Apply(w, e))
  {
    var d := Apply(w, e).db;
    if e.StartSession? {
      StartSessionKeeps(w, e.session, e.user, e.sections);
    } else if e.FinishSession? {
      FinishKeeps(w, e.session);
    } else if e.AbandonSession? {
      AbandonSessionKeeps(w, e.session);
    } else {
      TabStepKeeps(w, e);
    }
    SameLedgerBalances(w.db, d);
  }

  /** One step keeps the invariant and the books, and lets every row only evolve. */
  lemma StepKeeps(w: World, e: Event)
    requires WorldOk(w)
    ensures Keeps(w, Apply(w, e))
  {
    if IsSubmission(e) { SubmissionStepKeeps(w, e); }
    else if e.Claim? { ClaimStepKeeps(w, e.worker, e.id); }
    else if e.Recover? || e.LateRenew? || e.AbandonSection? { SweepStepKeeps(w, e); }
    else if e.Tick? { TickKeeps(w, e.elapsed); }
    else if IsWorkerEvent(e) { WorkerStepKeeps(w, e); }
    else { SessionStepKeeps(w, e); }
  }

  lemma {:induction false} RunKeeps(w: World, es: seq<Event>)
    requires WorldOk(w)
    ensures Keeps(w, Run(w, es))
  {
    if es == [] {
      EvolvesReflexive(w.db);
    } else {
      var before := Run(w, es[..|es| - 1]);
      RunKeeps(w, es[..|es| - 1]);
      StepKeeps(before, es[|es| - 1]);
      EvolvesTransitive(w.db, before.db, Run(w, es).db);
    }
  }
}
