/**
 The pausable clock of a full-mock section. Time stamps are microseconds, the resolution of the database;
 a paused clock keeps whole milliseconds.
 */
module SectionClock {
  import opened Common

  /** The three clock columns of a section row, and whether its attempt is still in progress. */
  datatype Clock = Clock(started: Option<int>, deadline: Option<int>, remaining: Option<int>, open: bool) {
    predicate Fresh() { started.None? && deadline.None? && remaining.None? }
    predicate Running() { started.Some? && deadline.Some? && remaining.None? }
    predicate Paused() { started.Some? && deadline.None? && remaining.Some? }

    /** The check constraints of the table. */
    predicate Valid() {
      || Fresh()
      || (Running() && started.value < deadline.value)
      || (Paused() && remaining.value > 0)
    }
  }

  const MILLISECOND := 1_000
  const MINUTE := 60_000_000

  function Coalesce(a: Option<int>, b: int): int { if a.Some? then a.value else b }

  /** Opening starts, resumes or leaves alone; it does nothing once the attempt is no longer in progress. */
  function Opened(c: Clock, minutes: nat, now: int): Clock
  {
    if !c.open then c
    else
      var due := if c.remaining.Some? then now + c.remaining.value * MILLISECOND
                 else Coalesce(c.started, now) + minutes * MINUTE;
      c.(started := Some(Coalesce(c.started, now)), deadline := Some(Coalesce(c.deadline, due)), remaining := None)
  }

  predicate Pausable(c: Clock, now: int)
  {
    c.open && (c.remaining.Some? || (c.deadline.Some? && c.deadline.value > now))
  }

  /** GREATEST(1, FLOOR(milliseconds left)). */
  function Left(deadline: int, now: int): int
  {
    var ms := (deadline - now) / MILLISECOND;
    if ms < 1 then 1 else ms
  }

  function PausedAt(c: Clock, now: int): Clock
  {
    if !Pausable(c, now) then c
    else c.(remaining := Some(if c.remaining.Some? then c.remaining.value else Left(c.deadline.value, now)), deadline := None)
  }

  /** The rows of one session: its status, the current section and one clock per section. */
  class Sections {
    var inProgress: bool
    var current: nat
    var clocks: map<nat, Clock>

    constructor (clocks: map<nat, Clock>)
      ensures inProgress && current == 1 && this.clocks == clocks
    {
      inProgress, current, this.clocks := true, 1, clocks;
    }

    predicate Unlocked(position: nat)
      reads this
    {
      inProgress && current == position
    }

    method StartSection(position: nat, minutes: nat, now: int) returns (ok: bool)
      modifies this`clocks
      ensures ok == old(Unlocked(position))
      ensures clocks == if ok && position in old(clocks)
                        then old(clocks)[position := Opened(old(clocks)[position], minutes, now)] else old(clocks)
    {
      if !inProgress || current != position { return false; }
      if position in clocks && clocks[position].open {
        var c := clocks[position];
        var started := Coalesce(c.started, now);
        var deadline :=
          if c.deadline.Some? then c.deadline.value
          else if c.remaining.Some? then now + c.remaining.value * MILLISECOND
          else started + minutes * MINUTE;
        clocks := clocks[position := Clock(Some(started), Some(deadline), None, true)];
      }
      assert position in clocks ==> clocks == clocks[position := clocks[position]];
      return true;
    }

    method PauseSection(position: nat, now: int) returns (ok: bool)
      modifies this`clocks
      ensures ok == (old(Unlocked(position)) && position in old(clocks) && Pausable(old(clocks)[position], now))
      ensures clocks == if ok then old(clocks)[position := PausedAt(old(clocks)[position], now)] else old(clocks)
    {
      if !inProgress || current != position || position !in clocks { return false; }
      var c := clocks[position];
      if !c.open || (c.remaining.None? && (c.deadline.None? || c.deadline.value <= now)) { return false; }
      var remaining := if c.remaining.Some? then c.remaining.value else Left(c.deadline.value, now);
      clocks := clocks[position := Clock(c.started, None, Some(remaining), c.open)];
      return true;
    }
  }

  // ---- Runs of one clock. ----

  /** A closed attempt is reopened when its assessment has failed for good. */
  datatype Action = Open(minutes: nat) | Pause | Close | Reopen
  datatype Event = Event(action: Action, time: int)

  function Step(c: Clock, e: Event): Clock
  {
    match e.action
    case Open(minutes) => Opened(c, minutes, e.time)
    case Pause => PausedAt(c, e.time)
    case Close => c.(open := false)
    case Reopen => c.(open := true)
  }

  const NEW := Clock(None, None, None, true)

  function Run(es: seq<Event>): Clock
  {
    if es == [] then NEW else Step(Run(es[..|es| - 1]), es[|es| - 1])
  }

  predicate Ordered(es: seq<Event>) { forall i, j | 0 <= i < j < |es| :: es[i].time <= es[j].time }

  /** Time during which the clock was running, up to the last event. */
  ghost function Used(es: seq<Event>): int
  {
    if |es| < 2 then 0
    else
      var before := es[..|es| - 1];
      Used(before) + (if Run(before).Running() then es[|es| - 1].time - before[|before| - 1].time else 0)
  }

  /** Pauses that stopped a running clock. */
  ghost function Stops(es: seq<Event>): nat
  {
    if es == [] then 0
    else
      var before, e := es[..|es| - 1], es[|es| - 1];
      Stops(before) + (if e.action.Pause? && Run(before).Running() && Pausable(Run(before), e.time) then 1 else 0)
  }

  /** The section's duration, fixed by the first opening. */
  ghost function Duration(es: seq<Event>): int
  {
    if es == [] then 0
    else
      var before, e := es[..|es| - 1], es[|es| - 1];
      if e.action.Open? && Run(before).Fresh() && Run(before).open then e.action.minutes * MINUTE else Duration(before)
  }

  /** What the clock still grants at a time; negative once the deadline has passed. */
  function Remaining(c: Clock, now: int): int
  {
    if c.deadline.Some? then c.deadline.value - now
    else if c.remaining.Some? then c.remaining.value * MILLISECOND
    else 0
  }

  predicate Positive(es: seq<Event>) { forall i | 0 <= i < |es| && es[i].action.Open? :: es[i].action.minutes > 0 }

  /** The table's check constraints hold after every run, so no statement is ever rejected. */
  lemma {:induction false} RunValid(es: seq<Event>)
    requires Ordered(es) && Positive(es)
    ensures Run(es).Valid()
    ensures Run(es).started.Some? && es != [] ==> Run(es).started.value <= es[|es| - 1].time
    ensures Run(es).started.Some? ==> es != []
  {
    if es != [] {
      RunValid(es[..|es| - 1]);
    }
  }

  /** Flooring loses less than a millisecond, the one-millisecond minimum grants less than one. */
  lemma StopDrift(deadline: int, now: int)
    requires deadline > now
    ensures -MILLISECOND < Left(deadline, now) * MILLISECOND - (deadline - now) < MILLISECOND
  {}

  /** Running time used and time remaining add up to the duration, to within a millisecond per stop. */
  lemma {:induction false} TimeIsConserved(es: seq<Event>)
    requires Ordered(es) && Positive(es) && es != [] && !Run(es).Fresh()
    ensures var drift := Used(es) + Remaining(Run(es), es[|es| - 1].time) - Duration(es);
            -999 * Stops(es) <= drift <= 999 * Stops(es)
  {
    var before, e := es[..|es| - 1], es[|es| - 1];
    var c := Run(before);
    RunValid(before);
    if before != [] {
      assert before[|before| - 1].time <= e.time;
      if c.Fresh() {
        FreshHasNoHistory(before);
      } else {
        TimeIsConserved(before);
        if c.Running() && Pausable(c, e.time) { StopDrift(c.deadline.value, e.time); }
      }
    }
  }

  lemma {:induction false} FreshHasNoHistory(es: seq<Event>)
    requires Ordered(es) && Positive(es) && Run(es).Fresh()
    ensures Used(es) == 0 && Stops(es) == 0
  {
    if es != [] {
      RunValid(es[..|es| - 1]);
      FreshHasNoHistory(es[..|es| - 1]);
    }
  }

  /** So a student who has not overrun the deadline has used at most the duration and a millisecond per stop. */
  lemma UsedIsBounded(es: seq<Event>)
    requires Ordered(es) && Positive(es) && es != [] && !Run(es).Fresh()
    requires Remaining(Run(es), es[|es| - 1].time) >= 0
    ensures Used(es) <= Duration(es) + Stops(es) * 999
  {
    TimeIsConserved(es);
  }

  lemma {:induction false} RunPrefix(es: seq<Event>, later: seq<Event>)
    requires later != []
    ensures Run(es + later) == Step(Run(es + later[..|later| - 1]), later[|later| - 1])
  {
    assert (es + later)[..|es + later| - 1] == es + later[..|later| - 1];
  }

  /** While the clock runs, opening again does not move the deadline. */
  lemma {:induction false} ReopeningKeepsDeadline(es: seq<Event>, later: seq<Event>)
    requires Run(es).Running() && forall e | e in later :: e.action.Open?
    ensures Run(es + later) == Run(es)
  {
    if later == [] {
      assert es + later == es;
    } else {
      RunPrefix(es, later);
      ReopeningKeepsDeadline(es, later[..|later| - 1]);
    }
  }

  /** Once the deadline has passed no opening, pausing, closing or reopening moves it: the section stays expired. */
  lemma {:induction false} ExpiredStaysExpired(es: seq<Event>, later: seq<Event>)
    requires Run(es).Running() && forall e | e in later :: e.time >= Run(es).deadline.value
    ensures Run(es + later).Running() && Run(es + later).deadline == Run(es).deadline
  {
    if later == [] {
      assert es + later == es;
    } else {
      RunPrefix(es, later);
      ExpiredStaysExpired(es, later[..|later| - 1]);
    }
  }

  /** Pausing is idempotent: a second pause, however late, keeps what the first one saved. */
  lemma PauseTwice(c: Clock, now: int, later: int)
    requires c.Valid() && Pausable(c, now)
    ensures PausedAt(PausedAt(c, now), later) == PausedAt(c, now)
    ensures PausedAt(c, now).Paused()
  {}
}
