/**
 Which provider of a priority level starts an operation: a shared cursor per level and purpose, with a
 process-local one while the shared store does not answer. Cursors are unbounded naturals.
 */
module ProviderRotation {

  datatype Key = Key(priority: int, purpose: string)

  /** The shared store answers, refuses, or advances its cursor without its answer arriving. */
  datatype Reply = Answered | Refused | Lost

  datatype Cursors = Cursors(shared: map<Key, nat>, local: map<Key, nat>)

  const EMPTY := Cursors(map[], map[])

  function Advanced(c: Cursors, key: Key): nat { if key in c.shared then c.shared[key] + 1 else 0 }
  function LocalOf(c: Cursors, key: Key): nat { if key in c.local then c.local[key] else 0 }

  function Choose(c: Cursors, key: Key, count: nat, reply: Reply): (r: (Cursors, nat))
    ensures count > 0 ==> r.1 < count
  {
    if count < 2 then (c, 0)
    else
      var next := Advanced(c, key);
      var c1 := if reply.Refused? then c else c.(shared := c.shared[key := next]);
      if reply.Answered? then (c1, next % count)
      else (c1.(local := c1.local[key := LocalOf(c, key) + 1]), LocalOf(c, key) % count)
  }

  class Rotation {
    var shared: map<Key, nat>
    var rotations: map<Key, nat>

    ghost function State(): Cursors
      reads this
    {
      Cursors(shared, rotations)
    }

    constructor ()
      ensures State() == EMPTY
    {
      shared, rotations := map[], map[];
    }

    method NextRotation(key: Key) returns (cursor: nat)
      modifies this`shared
      ensures cursor == Advanced(old(State()), key) && shared == old(shared)[key := cursor]
    {
      if key in shared { cursor := shared[key] + 1; } else { cursor := 0; }
      shared := shared[key := cursor];
    }

    method RotationOffset(key: Key, count: nat, reply: Reply) returns (offset: nat)
      modifies this
      ensures (State(), offset) == Choose(old(State()), key, count, reply)
      ensures count > 0 ==> offset < count
    {
      if count < 2 { return 0; }
      if !reply.Refused? {
        var cursor := NextRotation(key);
        if reply.Answered? { return cursor % count; }
      }
      var next := if key in rotations then rotations[key] else 0;
      rotations := rotations[key := next + 1];
      return next % count;
    }
  }

  // ---- Fairness over any run. ----

  datatype Call = Call(key: Key, count: nat, reply: Reply)

  function Run(calls: seq<Call>): Cursors
  {
    if calls == [] then EMPTY
    else
      var last := calls[|calls| - 1];
      Choose(Run(calls[..|calls| - 1]), last.key, last.count, last.reply).0
  }

  /** How often provider number `i` of a level started an operation. */
  function Starts(calls: seq<Call>, key: Key, i: nat): nat
  {
    if calls == [] then 0
    else
      var before, last := calls[..|calls| - 1], calls[|calls| - 1];
      Starts(before, key, i)
      + (if last.key == key && Choose(Run(before), key, last.count, last.reply).1 == i then 1 else 0)
  }

  /** How often the shared cursor's answer for the level was lost. */
  function Losses(calls: seq<Call>, key: Key): nat
  {
    if calls == [] then 0
    else Losses(calls[..|calls| - 1], key) + (if calls[|calls| - 1].key == key && calls[|calls| - 1].reply.Lost? then 1 else 0)
  }

  /** How many of the numbers below `m` leave remainder `i`. */
  function Visits(i: nat, m: nat, n: nat): nat
    requires n > 0
  {
    if m == 0 then 0 else Visits(i, m - 1, n) + (if (m - 1) % n == i then 1 else 0)
  }

  lemma AtLeastOnce(d: int, n: nat)
    requires d >= 1
    ensures d * n >= n
  {
  }

  /** Quotient and remainder are unique. */
  lemma Division(m: nat, n: nat, q: int, r: nat)
    requires r < n && m == q * n + r
    ensures m / n == q && m % n == r
  {
    var d := m / n - q;
    assert d * n == r - m % n;
    if d >= 1 { AtLeastOnce(d, n); }
    if d <= -1 { AtLeastOnce(-d, n); }
  }

  lemma Successor(m: nat, n: nat)
    requires n > 0
    ensures (m + 1) % n == if m % n + 1 == n then 0 else m % n + 1
    ensures (m + 1) / n == m / n + if m % n + 1 == n then 1 else 0
  {
    if m % n + 1 == n {
      assert m + 1 == (m / n + 1) * n + 0;
      Division(m + 1, n, m / n + 1, 0);
    } else {
      assert m + 1 == (m / n) * n + (m % n + 1);
      Division(m + 1, n, m / n, m % n + 1);
    }
  }

  lemma {:induction false} VisitsAreRounds(i: nat, m: nat, n: nat)
    requires i < n
    ensures Visits(i, m, n) == m / n + if i < m % n then 1 else 0
  {
    if m > 0 {
      VisitsAreRounds(i, m - 1, n);
      Successor(m - 1, n);
    }
  }

  /** One choice moves the cursors of its level by what it starts and loses, and leaves the others alone. */
  lemma ChoiceVisits(c: Cursors, last: Call, key: Key, n: nat, i: nat)
    requires n >= 2 && i < n && (last.key == key ==> last.count == n)
    ensures var (c', chosen) := Choose(c, last.key, last.count, last.reply);
            var before := Visits(i, Advanced(c, key), n) + Visits(i, LocalOf(c, key), n);
            var after := Visits(i, Advanced(c', key), n) + Visits(i, LocalOf(c', key), n);
            var started := if last.key == key && chosen == i then 1 else 0;
            var lost := if last.key == key && last.reply.Lost? then 1 else 0;
            && started <= after - before <= started + lost
            && ((last.key == key ==> last.reply.Answered?) ==> LocalOf(c', key) == LocalOf(c, key))
  {
  }

  /** Every start comes from a value of one of the two cursors; at most the lost ones are missing. */
  lemma {:induction false} StartsComeFromCursors(calls: seq<Call>, key: Key, n: nat, i: nat)
    requires n >= 2 && i < n && forall c | c in calls && c.key == key :: c.count == n
    ensures var c := Run(calls);
            var all := Visits(i, Advanced(c, key), n) + Visits(i, LocalOf(c, key), n);
            all - Losses(calls, key) <= Starts(calls, key, i) <= all
    ensures (forall c | c in calls && c.key == key :: c.reply.Answered?) ==> LocalOf(Run(calls), key) == 0
  {
    if calls != [] {
      var before, last := calls[..|calls| - 1], calls[|calls| - 1];
      StartsComeFromCursors(before, key, n, i);
      assert last in calls;
      ChoiceVisits(Run(before), last, key, n, i);
    }
  }

  /**
   Round robin over any run, whatever other levels and purposes do in between: two providers of a level start
   equally often up to one, two when the local cursor had to help, and one more per answer that was lost.
   */
  lemma RoundRobin(calls: seq<Call>, key: Key, n: nat, i: nat, j: nat)
    requires n >= 2 && i < n && j < n && forall c | c in calls && c.key == key :: c.count == n
    ensures Starts(calls, key, i) <= Starts(calls, key, j) + 2 + Losses(calls, key)
    ensures (forall c | c in calls && c.key == key :: c.reply.Answered?) ==>
              Starts(calls, key, i) <= Starts(calls, key, j) + 1
  {
    StartsComeFromCursors(calls, key, n, i);
    StartsComeFromCursors(calls, key, n, j);
    VisitsAreRounds(i, Advanced(Run(calls), key), n);
    VisitsAreRounds(j, Advanced(Run(calls), key), n);
    VisitsAreRounds(i, LocalOf(Run(calls), key), n);
    VisitsAreRounds(j, LocalOf(Run(calls), key), n);
    if forall c | c in calls && c.key == key :: c.reply.Answered? { NothingLost(calls, key); }
  }

  lemma {:induction false} NothingLost(calls: seq<Call>, key: Key)
    requires forall c | c in calls && c.key == key :: c.reply.Answered?
    ensures Losses(calls, key) == 0
  {
    if calls != [] {
      NothingLost(calls[..|calls| - 1], key);
      assert calls[|calls| - 1] in calls;
    }
  }
}
