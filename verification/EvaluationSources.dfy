/**
 What a submitted evaluation was made from.

 An assessment worker reads the answers of its attempt, and for speaking the recordings with their transcriptions, and
 submits what it read together with the evaluation. Nothing ties the submission to the claim: between the reading and
 the submission the lease may lapse, others may fail the job for good, the attempt may be reopened, changed and queued
 again, and recordings may be uploaded anew. The assessment and the transcription protocols run side by side here, with
 what each worker has read. `queued` and `made` record history: what an attempt held when it was last queued, and what
 its evaluation was made from.
 */
module EvaluationSources {
  import opened Common
  import opened AssessmentRows
  import opened AssessmentInvariants
  import AssessmentTheorems
  import A = AssessmentProtocol
  import T = Transcription

  /** `round` tells the queueing under which a processing attempt was read; none if it was open then. */
  datatype Notes = Notes(
    attempt: Uuid, answers: Answers, heard: bool, recordings: map<T.RecordingId, T.Recording>,
    rows: map<T.RecordingId, T.Row>, round: Option<nat>)

  datatype Made = Made(notes: Notes, parts: seq<Uuid>)

  datatype World = World(
    a: A.World, t: T.World, notes: map<nat, Notes>, queued: map<Uuid, Answers>, rounds: map<Uuid, nat>,
    made: map<Uuid, Made>)

  /** Submissions of evaluations and retries of transcriptions happen only as part of the steps below. */
  datatype Event =
    | Assess(step: A.Event)
    | Transcribe(move: T.Event)
    | ListAnswers(worker: nat)
    | ListRecordings(worker: nat)
    | Submit(worker: nat, parts: seq<Uuid>, grade: Grade, text: string, acknowledged: bool)

  function Round(w: World, id: Uuid): nat { if id in w.rounds then w.rounds[id] else 0 }

  function RowsOf(answers: Answers, id: Uuid): Answers
  {
    map x | x in answers && x.0 == id :: answers[x]
  }

  function RecordingsOf(recordings: map<T.RecordingId, T.Recording>, id: Uuid): map<T.RecordingId, T.Recording>
  {
    map x | x in recordings && x.0 == id :: recordings[x]
  }

  /** The text to evaluate for a task or part: the transcript where there is a recording, else the answer. */
  function TextOf(m: Notes, part: Uuid): Option<string>
  {
    var x := (m.attempt, part);
    if x in m.recordings then
      if x in m.rows && m.rows[x].status.TReady? && m.rows[x].transcript.Some? then Some(Trim(m.rows[x].transcript.value.text))
      else None
    else if x in m.answers then Some(Trim(m.answers[x]))
    else None
  }

  /** There is a text for everything; a blank one fails the assessment. */
  predicate Complete(m: Notes, skill: Skill, parts: seq<Uuid>)
  {
    (skill.Speaking? ==> m.heard) && forall q | q in parts :: TextOf(m, q).Some? && TextOf(m, q).value != ""
  }

  /** The answers stored with the evaluation. */
  function Graded(m: Notes, parts: seq<Uuid>): seq<AnswerInput>
    requires forall q | q in parts :: TextOf(m, q).Some?
  {
    seq(|parts|, i requires 0 <= i < |parts| => AnswerInput(parts[i], TextOf(m, parts[i]).value))
  }

  predicate CanSubmit(w: World, n: nat, parts: seq<Uuid>)
  {
    var k := A.WorkerAt(w.a, n);
    k.Evaluating? && n in w.notes && w.notes[n].attempt == k.id && Complete(w.notes[n], k.skill, parts)
  }

  function SubmitEvent(w: World, e: Event): A.Event
    requires e.Submit? && CanSubmit(w, e.worker, e.parts)
  {
    A.SubmitEvaluation(e.worker, Graded(w.notes[e.worker], e.parts), e.grade, e.text, e.acknowledged)
  }

  function ResultOf(w: World, e: Event): SubmitResult
    requires e.Submit? && CanSubmit(w, e.worker, e.parts)
  {
    var k := A.WorkerAt(w.a, e.worker);
    SubmitResult(k.id, k.user, k.skill, Graded(w.notes[e.worker], e.parts), e.grade, Some(e.text))
  }

  /** The submission takes effect. */
  predicate Submits(w: World, e: Event)
  {
    e.Submit? && CanSubmit(w, e.worker, e.parts) && AssessmentTheorems.IsSubmitOf(w.a, SubmitEvent(w, e), A.WorkerAt(w.a, e.worker).id)
  }

  /** The step queues an assessment, anew or again. */
  predicate Requeues(w: World, e: A.Event)
  {
    (e.QueueAssessment? || e.RetryAssessment?) && AssessmentTheorems.IsRequeueOf(w.a, e, e.id)
  }

  /** A retry of a speaking assessment also queues its failed transcriptions again, in the same transaction. */
  function Requeued(w: World, id: Uuid, again: bool, a: A.World): World
  {
    w.(a := a,
       t := if again then T.Apply(w.t, T.Retry(id)) else w.t,
       queued := w.queued[id := RowsOf(a.db.answers, id)],
       rounds := w.rounds[id := Round(w, id) + 1])
  }

  function AssessStep(w: World, e: A.Event): World
  {
    var a := A.Apply(w.a, e);
    if Requeues(w, e) then Requeued(w, e.id, e.RetryAssessment? && w.a.db.attempts[e.id].skill.Speaking?, a)
    else if e.ReadAttempt? && A.WorkerAt(w.a, e.worker).Claimed? then w.(a := a, notes := w.notes - {e.worker})
    else w.(a := a)
  }

  function Apply(w: World, e: Event): World
  {
    match e
    case Assess(step) => if step.SubmitEvaluation? then w else AssessStep(w, step)
    case Transcribe(move) => if move.Retry? then w else w.(t := T.Apply(w.t, move))
    case ListAnswers(n) =>
      var k := A.WorkerAt(w.a, n);
      if k.Evaluating? && k.id in w.a.db.attempts then
        var round := if w.a.db.attempts[k.id].status.Processing? then Some(Round(w, k.id)) else None;
        w.(notes := w.notes[n := Notes(k.id, RowsOf(w.a.db.answers, k.id), false, map[], map[], round)])
      else w
    case ListRecordings(n) =>
      var k := A.WorkerAt(w.a, n);
      if k.Evaluating? && k.skill.Speaking? && n in w.notes && w.notes[n].attempt == k.id then
        var heard := w.notes[n].(heard := true, recordings := RecordingsOf(w.t.tables.recordings, k.id), rows := w.t.tables.rows);
        w.(notes := w.notes[n := heard])
      else w
    case Submit(n, parts, _, _, _) =>
      if CanSubmit(w, n, parts) then
        w.(a := A.Apply(w.a, SubmitEvent(w, e)),
           made := if Submits(w, e) then w.made[w.notes[n].attempt := Made(w.notes[n], parts)] else w.made)
      else w
  }

  function Run(w: World, es: seq<Event>): World
  {
    if es == [] then w else Apply(Run(w, es[..|es| - 1]), es[|es| - 1])
  }

  const START := World(A.START, T.START, map[], map[], map[], map[])

  // ---- The invariant. ----

  ghost predicate SameRows(a: Answers, b: Answers, id: Uuid)
  {
    forall q: Uuid :: ((id, q) in a <==> (id, q) in b) && ((id, q) in a && (id, q) in b ==> a[(id, q)] == b[(id, q)])
  }

  /** While an attempt is being processed it holds what it held when it was queued. */
  ghost predicate Held(w: World, id: Uuid)
  {
    id in w.a.db.attempts && w.a.db.attempts[id].status.Processing? ==>
      id in w.queued && SameRows(w.a.db.answers, w.queued[id], id)
  }

  /** Notes of the current round are notes of what was queued. */
  ghost predicate NotesOk(w: World, m: Notes)
  {
    m.round.Some? ==>
      && m.round.value <= Round(w, m.attempt)
      && (m.round.value == Round(w, m.attempt) ==> m.attempt in w.queued && SameRows(m.answers, w.queued[m.attempt], m.attempt))
  }

  /** Recordings in the notes were current once, and are as long as their revision is; transcripts are of their audio. */
  ghost predicate HeardOk(t: T.Tables, m: Notes)
  {
    forall x | x in m.recordings ::
      && x in t.recordings && m.recordings[x].revision <= t.recordings[x].revision
      && (m.recordings[x].revision == t.recordings[x].revision ==> m.recordings[x] == t.recordings[x])
      && (x in m.rows && m.rows[x].status.TReady? ==>
            m.rows[x].transcript.Some? && m.rows[x].transcript.value.audio == m.recordings[x].key)
  }

  /** The stored answers are the texts that were evaluated. */
  ghost predicate MadeOk(d: Db, id: Uuid, m: Made)
  {
    && m.notes.attempt == id && AssessmentTheorems.SubmittedAt(d, id) && d.attempts[id].skill.Assessed()
    && forall q | q in m.parts ::
         TextOf(m.notes, q).Some? && (id, q) in d.answers && d.answers[(id, q)] == TextOf(m.notes, q).value
  }

  ghost predicate AllMade(w: World)
  {
    forall id | id in w.a.db.attempts && w.a.db.attempts[id].status.Submitted? && w.a.db.attempts[id].skill.Assessed() :: id in w.made
  }

  ghost predicate Inv(w: World)
  {
    && A.WorldOk(w.a) && T.WorldOk(w.t)
    && (forall id :: Held(w, id))
    && (forall n | n in w.notes :: NotesOk(w, w.notes[n]) && HeardOk(w.t.tables, w.notes[n]))
    && (forall id | id in w.made :: MadeOk(w.a.db, id, w.made[id]) && HeardOk(w.t.tables, w.made[id].notes))
    && AllMade(w)
  }
}
