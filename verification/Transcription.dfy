/**
 Transcriptions of speaking recordings and their revision fence.

 A recording is identified by its attempt and part, as the unique key of the table does; its row id never
 changes. Audio is stored under the storage key and never rewritten, so what a transcript was made from is
 told by that key. Claiming is three separate statements; uploads may commit between any two of them.
 */
module Transcription {
  import opened Common

  type RecordingId = (Uuid, Uuid)
  datatype Recording = Recording(key: Uuid, revision: nat)
  datatype TranscriptionStatus = TQueued | TRunning | TReady | TFailed
  datatype Transcript = Transcript(text: string, audio: Uuid)
  datatype Row = Row(
    revision: nat, status: TranscriptionStatus, attempts: nat, nextAttemptAt: int, updatedAt: int,
    transcript: Option<Transcript>)
  datatype Tables = Tables(recordings: map<RecordingId, Recording>, rows: map<RecordingId, Row>)

  function FreshRow(revision: nat, now: int): Row { Row(revision, TQueued, 0, now, now, None) }

  /** A new recording starts at revision one; a re-upload replaces the key and moves to the next revision. */
  function UploadTx(t: Tables, id: RecordingId, key: Uuid, now: int): Tables
  {
    var revision := if id in t.recordings then t.recordings[id].revision + 1 else 1;
    t.(recordings := t.recordings[id := Recording(key, revision)], rows := t.rows[id := FreshRow(revision, now)])
  }

  predicate Claimable(t: Tables, id: RecordingId, now: int)
  {
    id in t.rows && t.rows[id].status.TQueued? && t.rows[id].attempts < MAX_CLAIMS && t.rows[id].nextAttemptAt <= now
  }

  function ClaimTx(t: Tables, id: RecordingId, now: int): (Tables, bool)
  {
    if Claimable(t, id, now) then
      (t.(rows := t.rows[id := t.rows[id].(status := TRunning, attempts := t.rows[id].attempts + 1, updatedAt := now)]), true)
    else (t, false)
  }

  /** The fence: a statement names the revision it speaks for, and only a running row of that revision matches. */
  predicate Fenced(t: Tables, id: RecordingId, revision: nat)
  {
    id in t.rows && t.rows[id].revision == revision && t.rows[id].status.TRunning?
  }

  function CompleteTx(t: Tables, id: RecordingId, revision: nat, transcript: Transcript, now: int): (Tables, bool)
  {
    if Fenced(t, id, revision) then
      (t.(rows := t.rows[id := t.rows[id].(status := TReady, transcript := Some(transcript), updatedAt := now)]), true)
    else (t, false)
  }

  function FailTx(t: Tables, id: RecordingId, revision: nat, now: int): Tables
  {
    if Fenced(t, id, revision) then
      var r := t.rows[id];
      t.(rows := t.rows[id := r.(
           status := if r.attempts >= MAX_CLAIMS then TFailed else TQueued,
           nextAttemptAt := now + (if r.attempts <= 1 then FIRST_BACKOFF else LATER_BACKOFF),
           updatedAt := now)])
    else t
  }

  function RenewTx(t: Tables, id: RecordingId, revision: nat, now: int): Tables
  {
    if Fenced(t, id, revision) then t.(rows := t.rows[id := t.rows[id].(updatedAt := now)]) else t
  }

  function Recovered(r: Row, now: int): Row
  {
    if r.status.TRunning? && r.updatedAt < now - LEASE then
      r.(status := TQueued, attempts := if r.attempts == 0 then 0 else r.attempts - 1, nextAttemptAt := now, updatedAt := now)
    else r
  }

  function RecoverTx(t: Tables, now: int): Tables
  {
    t.(rows := map id | id in t.rows :: Recovered(t.rows[id], now))
  }

  /** A retried speaking assessment also requeues the failed transcriptions of its recordings. */
  function Requeued(r: Row, now: int): Row
  {
    if r.status.TFailed? then r.(status := TQueued, attempts := 0, nextAttemptAt := now, updatedAt := now) else r
  }

  function RetryTx(t: Tables, attempt: Uuid, now: int): Tables
  {
    t.(rows := map id | id in t.rows ::
        if id.0 == attempt && id in t.recordings then Requeued(t.rows[id], now) else t.rows[id])
  }

  // ---- The repository. ----

  class Repository {
    var recordings: map<RecordingId, Recording>
    var rows: map<RecordingId, Row>

    ghost function State(): Tables
      reads this
    {
      Tables(recordings, rows)
    }

    constructor ()
      ensures State() == Tables(map[], map[])
    {
      recordings, rows := map[], map[];
    }

    /** Returns the key that was replaced, so that the caller can delete the old object. */
    method UpsertRecording(id: RecordingId, key: Uuid, now: int) returns (previous: Option<Uuid>)
      modifies this
      ensures State() == UploadTx(old(State()), id, key, now)
      ensures previous == if id in old(recordings) then Some(old(recordings)[id].key) else None
    {
      previous := None;
      var revision := 1;
      if id in recordings {
        previous := Some(recordings[id].key);
        revision := recordings[id].revision + 1;
      }
      recordings := recordings[id := Recording(key, revision)];
      rows := rows[id := FreshRow(revision, now)];
    }

    /** First statement of a claim; the second only reads key and revision from one row, as the event `Load` does. */
    method MarkRunning(id: RecordingId, now: int) returns (claimed: bool)
      modifies this`rows
      ensures (State(), claimed) == ClaimTx(old(State()), id, now)
    {
      claimed := false;
      if id in rows {
        var r := rows[id];
        if r.status == TQueued && r.attempts < MAX_CLAIMS && r.nextAttemptAt <= now {
          rows := rows[id := r.(status := TRunning, attempts := r.attempts + 1, updatedAt := now)];
          claimed := true;
        }
      }
    }

    method CompleteTranscription(id: RecordingId, revision: nat, transcript: Transcript, now: int) returns (updated: bool)
      modifies this`rows
      ensures (State(), updated) == CompleteTx(old(State()), id, revision, transcript, now)
    {
      updated := false;
      if id in rows && rows[id].revision == revision && rows[id].status == TRunning {
        rows := rows[id := rows[id].(status := TReady, transcript := Some(transcript), updatedAt := now)];
        updated := true;
      }
    }

    method FailTranscription(id: RecordingId, revision: nat, now: int)
      modifies this`rows
      ensures State() == FailTx(old(State()), id, revision, now)
    {
      if id in rows && rows[id].revision == revision && rows[id].status == TRunning {
        var r := rows[id];
        var backoff := if r.attempts <= 1 then FIRST_BACKOFF else LATER_BACKOFF;
        rows := rows[id := Row(revision, if r.attempts >= MAX_CLAIMS then TFailed else TQueued, r.attempts,
                               now + backoff, now, r.transcript)];
      }
    }

    method RenewTranscription(id: RecordingId, revision: nat, now: int)
      modifies this`rows
      ensures State() == RenewTx(old(State()), id, revision, now)
    {
      if id in rows && rows[id].revision == revision && rows[id].status == TRunning {
        rows := rows[id := rows[id].(updatedAt := now)];
      }
    }

    method RecoverTranscriptions(now: int)
      modifies this`rows
      ensures State() == RecoverTx(old(State()), now)
    {
      var pending := rows.Keys;
      while pending != {}
        invariant pending <= old(rows.Keys) && rows.Keys == old(rows.Keys)
        invariant forall id | id in rows ::
            rows[id] == if id in pending then old(rows)[id] else Recovered(old(rows)[id], now)
        decreases pending
      {
        var id :| id in pending;
        pending := pending - {id};
        rows := rows[id := Recovered(rows[id], now)];
      }
      assert rows == RecoverTx(old(State()), now).rows;
    }
  }

  // ---- The protocol. ----

  /** A worker between its statements: it has marked the row, or it holds a key with the revision beside it. */
  datatype Worker = Idle | Marked(id: RecordingId) | Loaded(id: RecordingId, held: Recording)

  datatype World = World(tables: Tables, workers: map<nat, Worker>, now: int)

  datatype Event =
    | Upload(id: RecordingId, key: Uuid)
    | Mark(worker: nat, id: RecordingId)
    | Load(worker: nat)
    | Complete(worker: nat, text: string)
    | Fail(worker: nat)
    | Renew(worker: nat)
    | Crash(worker: nat)
    | Recover
    | Retry(attempt: Uuid)
    | Tick(elapsed: nat)

  function WorkerAt(w: World, n: nat): Worker { if n in w.workers then w.workers[n] else Idle }

  function Apply(w: World, e: Event): World
  {
    match e
    case Upload(id, key) => w.(tables := UploadTx(w.tables, id, key, w.now))
    case Mark(n, id) =>
      if WorkerAt(w, n).Idle? && Claimable(w.tables, id, w.now) then
        w.(tables := ClaimTx(w.tables, id, w.now).0, workers := w.workers[n := Marked(id)])
      else w
    case Load(n) =>
      var k := WorkerAt(w, n);
      if k.Marked? then
        w.(workers := w.workers[n := if k.id in w.tables.recordings then Loaded(k.id, w.tables.recordings[k.id]) else Idle])
      else w
    case Complete(n, text) =>
      var k := WorkerAt(w, n);
      if k.Loaded? then
        w.(tables := CompleteTx(w.tables, k.id, k.held.revision, Transcript(text, k.held.key), w.now).0,
           workers := w.workers[n := Idle])
      else w
    case Fail(n) =>
      var k := WorkerAt(w, n);
      if k.Loaded? then
        w.(tables := FailTx(w.tables, k.id, k.held.revision, w.now), workers := w.workers[n := Idle])
      else w
    case Renew(n) =>
      var k := WorkerAt(w, n);
      if k.Loaded? then w.(tables := RenewTx(w.tables, k.id, k.held.revision, w.now)) else w
    case Crash(n) => w.(workers := w.workers[n := Idle])
    case Recover => w.(tables := RecoverTx(w.tables, w.now))
    case Retry(attempt) => w.(tables := RetryTx(w.tables, attempt, w.now))
    case Tick(elapsed) => w.(now := w.now + elapsed)
  }

  function Run(w: World, es: seq<Event>): World
  {
    if es == [] then w else Apply(Run(w, es[..|es| - 1]), es[|es| - 1])
  }

  const START := World(Tables(map[], map[]), map[], 0)

  ghost predicate RowOk(t: Tables, id: RecordingId)
    requires id in t.rows
  {
    var r := t.rows[id];
    && id in t.recordings && r.revision == t.recordings[id].revision >= 1
    && (r.status.TReady? ==> r.transcript.Some? && r.transcript.value.audio == t.recordings[id].key)
    && (r.status.TQueued? ==> r.attempts <= 2)
    && (r.status.TRunning? ==> 1 <= r.attempts <= 3)
    && (r.status.TFailed? ==> r.attempts == 3)
  }

  /** A loaded worker holds a pair that was current once, and is current if its revision still is. */
  ghost predicate WorkerOk(t: Tables, k: Worker)
  {
    k.Loaded? ==>
      && k.id in t.recordings && k.held.revision <= t.recordings[k.id].revision
      && (k.held.revision == t.recordings[k.id].revision ==> k.held.key == t.recordings[k.id].key)
  }

  ghost predicate WorldOk(w: World)
  {
    && w.tables.recordings.Keys == w.tables.rows.Keys
    && (forall id | id in w.tables.rows :: RowOk(w.tables, id))
    && (forall n | n in w.workers :: WorkerOk(w.tables, w.workers[n]))
  }

  lemma StepKeeps(w: World, e: Event)
    requires WorldOk(w)
    ensures WorldOk(Apply(w, e))
  {
    var w' := Apply(w, e);
    forall id | id in w'.tables.rows ensures RowOk(w'.tables, id) {
      if id in w.tables.rows { assert RowOk(w.tables, id); }
      if (e.Complete? || e.Fail? || e.Renew?) && e.worker in w.workers { assert WorkerOk(w.tables, w.workers[e.worker]); }
    }
    forall n | n in w'.workers ensures WorkerOk(w'.tables, w'.workers[n]) {
      if n in w.workers { assert WorkerOk(w.tables, w.workers[n]); }
    }
  }

  lemma {:induction false} RunKeeps(es: seq<Event>)
    ensures WorldOk(Run(START, es))
  {
    if es != [] {
      RunKeeps(es[..|es| - 1]);
      StepKeeps(Run(START, es[..|es| - 1]), es[|es| - 1]);
    }
  }

  /** A ready transcription is the transcript of the audio the recording row points at now. */
  lemma ReadyMatchesAudio(es: seq<Event>, id: RecordingId)
    requires var t := Run(START, es).tables; id in t.rows && t.rows[id].status.TReady?
    ensures var t := Run(START, es).tables;
            && id in t.recordings && t.rows[id].revision == t.recordings[id].revision
            && t.rows[id].transcript.Some? && t.rows[id].transcript.value.audio == t.recordings[id].key
  {
    RunKeeps(es);
    assert RowOk(Run(START, es).tables, id);
  }

  /**
   The key and the revision a claim loads belong together: the revision never runs ahead of the recording, and
   it is still current exactly when the whole pair is, however many uploads came since.
   */
  lemma LoadedPairIsCurrent(es: seq<Event>, n: nat)
    requires WorkerAt(Run(START, es), n).Loaded?
    ensures var w := Run(START, es); var k := WorkerAt(w, n);
            && k.id in w.tables.recordings && k.held.revision <= w.tables.recordings[k.id].revision
            && (k.held == w.tables.recordings[k.id] <==> k.held.revision == w.tables.recordings[k.id].revision)
  {
    var w := Run(START, es);
    RunKeeps(es);
    assert WorkerOk(w.tables, w.workers[n]);
  }

  /** Whatever a worker that loaded an older revision still reports, the row of the newer revision is untouched. */
  lemma StaleWorkerChangesNothing(es: seq<Event>, e: Event)
    requires e.Complete? || e.Fail? || e.Renew?
    requires var w := Run(START, es); var k := WorkerAt(w, e.worker);
             k.Loaded? && k.id in w.tables.recordings && k.held.revision != w.tables.recordings[k.id].revision
    ensures Apply(Run(START, es), e).tables == Run(START, es).tables
  {
    var w := Run(START, es);
    RunKeeps(es);
    var k := w.workers[e.worker];
    assert WorkerOk(w.tables, k);
    if k.id in w.tables.rows { assert RowOk(w.tables, k.id); }
  }

  /** A worker's completion takes effect exactly when its revision is current and the row is running. */
  lemma CompletionTakesEffect(es: seq<Event>, n: nat, text: string)
    requires WorkerAt(Run(START, es), n).Loaded?
    ensures var w := Run(START, es); var w' := Apply(w, Complete(n, text)); var k := WorkerAt(w, n);
            k.id in w.tables.rows && k.id in w.tables.recordings &&
            (w'.tables.rows[k.id].status.TReady? && !w.tables.rows[k.id].status.TReady?
             <==> w.tables.recordings[k.id].revision == k.held.revision && w.tables.rows[k.id].status.TRunning?)
            && (w'.tables != w.tables ==>
                  w'.tables.rows[k.id].transcript == Some(Transcript(text, w.tables.recordings[k.id].key)))
  {
    var w := Run(START, es);
    RunKeeps(es);
    assert WorkerOk(w.tables, w.workers[n]);
    assert w.tables == Tables(w.tables.recordings, w.tables.rows);
    assert RowOk(w.tables, WorkerAt(w, n).id);
  }

  /** No queued transcription becomes unclaimable, and a lapsed lease or a retry makes a claim possible again. */
  lemma QueuedIsClaimable(es: seq<Event>, id: RecordingId, now: int)
    requires var t := Run(START, es).tables; id in t.rows && t.rows[id].status.TQueued? && t.rows[id].nextAttemptAt <= now
    ensures ClaimTx(Run(START, es).tables, id, now).1
  {
    RunKeeps(es);
    assert RowOk(Run(START, es).tables, id);
  }

  /** What has been uploaded, or is retried after its third failure, may be claimed at once. */
  lemma WaitingIsClaimable(es: seq<Event>, id: RecordingId, key: Uuid, now: int, later: int)
    ensures var t := Run(START, es).tables;
            && (ClaimTx(UploadTx(t, id, key, now), id, later).1 <==> later >= now)
            && (id in t.rows && t.rows[id].status.TFailed? ==> (ClaimTx(RetryTx(t, id.0, now), id, later).1 <==> later >= now))
  {
    RunKeeps(es);
    if id in Run(START, es).tables.rows { assert RowOk(Run(START, es).tables, id); }
  }

  /** A failure backs off ten seconds after the first claim and a minute after the second; the third is the last. */
  lemma BackOff(es: seq<Event>, id: RecordingId, now: int, later: int)
    requires var t := Run(START, es).tables; id in t.rows && t.rows[id].status.TRunning?
    ensures var t := Run(START, es).tables; var r := t.rows[id];
            ClaimTx(FailTx(t, id, r.revision, now), id, later).1
            <==> (r.attempts == 1 && later >= now + 10_000) || (r.attempts == 2 && later >= now + 60_000)
  {
    RunKeeps(es);
    assert RowOk(Run(START, es).tables, id);
  }

  /** A claim holds for two minutes, counted from the last time its worker renewed it. */
  lemma LeaseOfTwoMinutes(es: seq<Event>, id: RecordingId, now: int, renewed: int, later: int)
    requires ClaimTx(Run(START, es).tables, id, now).1
    ensures var t := Run(START, es).tables; var claimed := ClaimTx(t, id, now).0; var revision := t.rows[id].revision;
            && !ClaimTx(claimed, id, later).1
            && (ClaimTx(RecoverTx(claimed, later), id, later).1 <==> later > now + 120_000)
            && (ClaimTx(RecoverTx(RenewTx(claimed, id, revision, renewed), later), id, later).1 <==> later > renewed + 120_000)
  {
    RunKeeps(es);
    assert RowOk(Run(START, es).tables, id);
  }
}
