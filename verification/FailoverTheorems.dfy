/** What failover over a provider chain guarantees. */
module FailoverTheorems {
  import opened Common
  import opened ProviderRotation
  import opened Sorting
  import opened Failover

  // ---- The plan is the chain, level by level, each level rotated. ----

  function IdOf(p: Provider): Uuid { p.id }

  ghost predicate ByPriority(ps: seq<Provider>)
  {
    forall i, j | 0 <= i < j < |ps| :: ps[i].priority <= ps[j].priority
  }

  predicate Levels(groups: seq<seq<Provider>>)
  {
    forall i, j | 0 <= i < |groups| && 0 <= j < |groups[i]| && |groups[i]| > 0 :: groups[i][j].priority == groups[i][0].priority
  }

  lemma {:induction false} GroupsJoin(ps: seq<Provider>)
    ensures Join(GroupsOf(ps)) == ps && Levels(GroupsOf(ps))
  {
    if ps != [] {
      var front, p := ps[..|ps| - 1], ps[|ps| - 1];
      GroupsJoin(front);
      var groups: seq<seq<Provider>>, r := GroupsOf(front), GroupsOf(ps);
      var n := |groups|;
      if n > 0 && groups[n - 1][0].priority == p.priority {
        assert r[..n - 1] == groups[..n - 1] && r[n - 1] == groups[n - 1] + [p];
      } else {
        assert r[..n] == groups;
      }
    }
  }

  /** Rotating a group is cutting it in two and swapping the parts. */
  lemma RotateSwaps(group: seq<Provider>, offset: nat)
    requires offset < |group|
    ensures Rotate(group, offset) == group[offset..] + group[..offset]
  {
    var n := |group|;
    forall i | 0 <= i < n ensures Rotate(group, offset)[i] == (group[offset..] + group[..offset])[i] {
      if i + offset < n {
        Division(i + offset, n, 0, i + offset);
      } else {
        Division(i + offset, n, 1, i + offset - n);
      }
    }
  }

  lemma RotatePermutes(group: seq<Provider>, offset: nat)
    requires offset < |group|
    ensures multiset(Rotate(group, offset)) == multiset(group)
  {
    RotateSwaps(group, offset);
    assert group == group[..offset] + group[offset..];
  }

  lemma {:induction false} OrderPermutes(c: Cursors, purpose: string, groups: seq<seq<Provider>>, replies: nat -> Reply, n: nat)
    requires NonEmpty(groups) && n <= |groups|
    ensures multiset(Order(c, purpose, groups, replies, n)) == multiset(Join(groups[..n]))
  {
    if n > 0 {
      OrderPermutes(c, purpose, groups, replies, n - 1);
      var g := groups[n - 1];
      RotatePermutes(g, Choose(Spin(c, purpose, groups, replies, n - 1).0, Key(g[0].priority, purpose), |g|, replies(n - 1)).1);
      assert groups[..n][..n - 1] == groups[..n - 1];
    }
  }

  /** Rotation never moves a provider out of its level. */
  lemma {:induction false} OrderKeepsPriorities(c: Cursors, purpose: string, groups: seq<seq<Provider>>, replies: nat -> Reply, n: nat)
    requires NonEmpty(groups) && n <= |groups| && Levels(groups)
    ensures var order, joined := Order(c, purpose, groups, replies, n), Join(groups[..n]);
            |order| == |joined| && forall i | 0 <= i < |order| :: order[i].priority == joined[i].priority
  {
    if n > 0 {
      OrderKeepsPriorities(c, purpose, groups, replies, n - 1);
      assert groups[..n][..n - 1] == groups[..n - 1];
    }
  }

  /** The plan contacts exactly the chain's providers, and in the chain's order of priorities. */
  lemma PlanIsRotatedChain(chain: seq<Provider>, cursors: Cursors, purpose: string, replies: nat -> Reply)
    ensures var plan := Plan(chain, cursors, purpose, replies);
            && |plan| == |chain| && multiset(plan) == multiset(chain)
            && forall i | 0 <= i < |plan| :: plan[i].priority == chain[i].priority
  {
    var groups := GroupsOf(chain);
    GroupsJoin(chain);
    assert groups[..|groups|] == groups;
    OrderPermutes(cursors, purpose, groups, replies, |groups|);
    OrderKeepsPriorities(cursors, purpose, groups, replies, |groups|);
  }

  // ---- The chain. ----

  /** Stored rows have distinct identities; only the row of the process's own provider is not a stored provider. */
  ghost predicate Rows(items: seq<Provider>, env: Option<Provider>)
  {
    && Distinct(IdOf, items) && (forall p | p in items :: !p.fromEnv)
    && (env.Some? ==> env.value.fromEnv && env.value.id == ENV_ID)
  }

  lemma {:induction false} StoredDistinct(items: seq<Provider>)
    requires Distinct(IdOf, items)
    ensures Distinct(IdOf, Stored(items))
    ensures forall p | p in Stored(items) :: p in items && p.id != ENV_ID
  {
    if items != [] {
      var front, last := items[..|items| - 1], items[|items| - 1];
      StoredDistinct(front);
      forall p | p in Stored(front) ensures p.id != last.id {
        assert p in front;
        var i :| 0 <= i < |front| && front[i] == p;
        assert IdOf(items[i]) != IdOf(items[|items| - 1]);
      }
    }
  }

  lemma CandidatesDistinct(items: seq<Provider>, env: Option<Provider>)
    requires Rows(items, env)
    ensures Distinct(IdOf, Candidates(items, env))
    ensures forall p | p in Candidates(items, env) && p.fromEnv :: p.id == ENV_ID
  {
    StoredDistinct(items);
  }

  lemma {:induction false} EligibleMembers(ps: seq<Provider>, purpose: string)
    ensures forall p | p in Eligible(ps, purpose) :: p in ps && p.enabled && purpose in p.scopes
    ensures Stores(Eligible(ps, purpose)) <= MAX_CHAIN
  {
    if ps != [] {
      var before := Eligible(ps[..|ps| - 1], purpose);
      EligibleMembers(ps[..|ps| - 1], purpose);
      assert (before + [ps[|ps| - 1]])[..|before|] == before;
    }
  }

  lemma LastIsLater(ps: seq<Provider>, before: seq<Provider>)
    requires ps != [] && Distinct(IdOf, ps) && ByPriority(ps) && forall p | p in before :: p in ps[..|ps| - 1]
    requires Distinct(IdOf, before) && ByPriority(before)
    ensures Distinct(IdOf, before + [ps[|ps| - 1]]) && ByPriority(before + [ps[|ps| - 1]])
  {
    var front, last := ps[..|ps| - 1], ps[|ps| - 1];
    forall i | 0 <= i < |before| ensures before[i].id != last.id && before[i].priority <= last.priority {
      assert before[i] in before && before[i] in front;
      var j :| 0 <= j < |front| && front[j] == before[i];
      var k := |ps| - 1;
      assert 0 <= j < k < |ps| && ps[j] == front[j] && ps[k] == last;
      assert IdOf(ps[j]) != IdOf(ps[k]);
      assert ps[j].priority <= ps[k].priority;
    }
  }

  /** Picking some of the providers keeps them apart and in order. */
  lemma {:induction false} EligibleKeeps(ps: seq<Provider>, purpose: string)
    requires Distinct(IdOf, ps) && ByPriority(ps)
    ensures Distinct(IdOf, Eligible(ps, purpose)) && ByPriority(Eligible(ps, purpose))
  {
    if ps != [] {
      var front, last := ps[..|ps| - 1], ps[|ps| - 1];
      EligibleKeeps(front, purpose);
      EligibleMembers(front, purpose);
      LastIsLater(ps, Eligible(front, purpose));
    }
  }

  lemma {:induction false} AtMostOneOwn(ps: seq<Provider>)
    requires Distinct(IdOf, ps) && forall p | p in ps && p.fromEnv :: p.id == ENV_ID
    ensures |ps| <= Stores(ps) + 1
    ensures (forall p | p in ps :: p.id != ENV_ID) ==> |ps| == Stores(ps)
  {
    if ps != [] {
      var front, last := ps[..|ps| - 1], ps[|ps| - 1];
      AtMostOneOwn(front);
      if last.fromEnv {
        forall p | p in front ensures p.id != ENV_ID {
          var i :| 0 <= i < |front| && front[i] == p;
          assert IdOf(ps[i]) != IdOf(ps[|ps| - 1]);
        }
      }
    }
  }

  lemma OrderedByPriority(ps: seq<Provider>)
    requires Ordered(Before, ps)
    ensures ByPriority(ps)
  {
    forall i, j | 0 <= i < j < |ps| ensures ps[i].priority <= ps[j].priority {
      assert !Before(ps[j], ps[i]);
    }
  }

  /** All candidates in order: distinct, by priority, the process's own one under its own identity. */
  lemma SortedCandidates(items: seq<Provider>, env: Option<Provider>)
    requires Rows(items, env)
    ensures var sorted := Sort(Before, Candidates(items, env));
            && Distinct(IdOf, sorted) && ByPriority(sorted)
            && forall p | p in sorted && p.fromEnv :: p.id == ENV_ID
  {
    var all, sorted := Candidates(items, env), Sort(Before, Candidates(items, env));
    CandidatesDistinct(items, env);
    SortedProviders(all);
    DistinctPermutation(IdOf, all, sorted);
    SameMembers(all, sorted);
    OrderedByPriority(sorted);
  }

  /** Within a level the stored providers come by identity, and the process's own one after them. */
  lemma WithinALevel(items: seq<Provider>, env: Option<Provider>, i: nat, j: nat)
    requires var sorted := Sort(Before, Candidates(items, env)); i < j < |sorted| && sorted[i].priority == sorted[j].priority
    ensures var sorted := Sort(Before, Candidates(items, env));
            && (sorted[i].fromEnv ==> sorted[j].fromEnv) && (!sorted[j].fromEnv ==> sorted[i].id <= sorted[j].id)
  {
    SortedProviders(Candidates(items, env));
    var sorted := Sort(Before, Candidates(items, env));
    assert !Before(sorted[j], sorted[i]);
  }

  /** The settings row, if there is one. */
  ghost predicate SettingsAt(items: seq<Provider>, i: nat) { i < |items| && items[i].id == ENV_ID }

  lemma {:induction false} SettingsFound(items: seq<Provider>, env: Option<Provider>, i: nat)
    requires Rows(items, env)
    ensures SettingsAt(items, i) ==> Settings(items) == Some(items[i])
    ensures (forall k: nat :: !SettingsAt(items, k)) ==> Settings(items).None?
  {
    if items != [] {
      var front, k := items[..|items| - 1], |items| - 1;
      if SettingsAt(items, i) && i < k { assert IdOf(items[i]) != IdOf(items[k]); }
      assert Distinct(IdOf, front) && Rows(front, env);
      SettingsFound(front, env, i);
      assert forall j: nat :: SettingsAt(front, j) ==> SettingsAt(items, j);
      assert SettingsAt(items, k) <==> items[k].id == ENV_ID;
    }
  }

  lemma {:induction false} StoredMembers(items: seq<Provider>)
    ensures forall p :: p in Stored(items) <==> p in items && p.id != ENV_ID
  {
    if items != [] {
      StoredMembers(items[..|items| - 1]);
      SplitLast(items);
    }
  }

  /**
   The process's own provider keeps its identity, its credential and its endpoint, and takes the priority, the scopes, the
   state and the timeout that are stored for it; stored providers take part as they are.
   */
  lemma SettingsAreObeyed(items: seq<Provider>, own: Provider, i: nat, p: Provider)
    requires Rows(items, Some(own)) && SettingsAt(items, i)
    ensures p in Candidates(items, Some(own)) <==>
            || (p in items && p.id != ENV_ID)
            || p == Provider(own.id, items[i].priority, items[i].enabled, items[i].scopes, items[i].timeout, true, own.sound)
  {
    SettingsFound(items, Some(own), i);
    StoredMembers(items);
  }

  lemma OwnWithoutSettings(items: seq<Provider>, own: Provider, p: Provider)
    requires Rows(items, Some(own)) && forall k: nat :: !SettingsAt(items, k)
    ensures p in Candidates(items, Some(own)) <==> p in items || p == own
  {
    SettingsFound(items, Some(own), 0);
    StoredMembers(items);
    forall x | x in items ensures x.id != ENV_ID {
      var k: nat :| k < |items| && items[k] == x;
      assert !SettingsAt(items, k);
    }
  }

  lemma {:induction false} OwnIsEligible(ps: seq<Provider>, purpose: string, p: Provider)
    requires p.fromEnv
    ensures p in Eligible(ps, purpose) <==> p in ps && p.enabled && purpose in p.scopes
  {
    if ps != [] {
      OwnIsEligible(ps[..|ps| - 1], purpose, p);
      SplitLast(ps);
    }
  }

  /** So its settings decide whether it takes part in an operation, and how urgently. */
  lemma SettingsDecide(items: seq<Provider>, own: Provider, i: nat, purpose: string, p: Provider)
    requires Rows(items, Some(own)) && SettingsAt(items, i)
    ensures p in Chain(Loaded(items), Some(own), purpose) && p.fromEnv <==>
            && items[i].enabled && purpose in items[i].scopes
            && p == Provider(own.id, items[i].priority, true, items[i].scopes, items[i].timeout, true, own.sound)
  {
    var all := Candidates(items, Some(own));
    SettingsAreObeyed(items, own, i, p);
    SortedProviders(all);
    SameMembers(all, Sort(Before, all));
    if p.fromEnv { OwnIsEligible(Sort(Before, all), purpose, p); }
  }

  /** At most eight stored providers and the process's own one, each once, by priority. */
  lemma ChainFacts(loaded: Loading, env: Option<Provider>, purpose: string)
    requires Rows(if loaded.Loaded? then loaded.items else [], env)
    ensures var chain := Chain(loaded, env, purpose);
            && Distinct(IdOf, chain) && ByPriority(chain) && |chain| <= MAX_CHAIN + 1
            && forall p | p in chain :: p.enabled && purpose in p.scopes
  {
    var items := if loaded.Loaded? then loaded.items else [];
    var sorted := Sort(Before, Candidates(items, env));
    SortedCandidates(items, env);
    EligibleKeeps(sorted, purpose);
    EligibleMembers(sorted, purpose);
    AtMostOneOwn(Eligible(sorted, purpose));
  }

  /** The stored providers among the first `n` that are enabled for the purpose. */
  function Rivals(ps: seq<Provider>, purpose: string, n: nat): set<nat>
    requires n <= |ps|
  {
    set k: nat | k < n && !ps[k].fromEnv && ps[k].enabled && purpose in ps[k].scopes
  }

  lemma {:induction false} StoresAreRivals(ps: seq<Provider>, purpose: string, n: nat)
    requires n <= |ps|
    ensures Stores(Eligible(ps[..n], purpose)) == Min(|Rivals(ps, purpose, n)|, MAX_CHAIN)
  {
    if n == 0 {
      assert Rivals(ps, purpose, n) == {};
    } else {
      var front, p := Eligible(ps[..n - 1], purpose), ps[n - 1];
      StoresAreRivals(ps, purpose, n - 1);
      assert ps[..n][..n - 1] == ps[..n - 1];
      assert (front + [p])[..|front|] == front;
      OneMoreRival(ps, purpose, n);
    }
  }

  lemma OneMoreRival(ps: seq<Provider>, purpose: string, n: nat)
    requires 0 < n <= |ps|
    ensures var p := ps[n - 1];
            |Rivals(ps, purpose, n)|
            == |Rivals(ps, purpose, n - 1)| + if !p.fromEnv && p.enabled && purpose in p.scopes then 1 else 0
  {
    var p, before := ps[n - 1], Rivals(ps, purpose, n - 1);
    if !p.fromEnv && p.enabled && purpose in p.scopes {
      assert Rivals(ps, purpose, n) == before + {n - 1};
    } else {
      assert Rivals(ps, purpose, n) == before;
    }
  }

  lemma {:induction false} EligibleStays(ps: seq<Provider>, purpose: string, n: nat, p: Provider)
    requires n <= |ps| && p !in ps[n..]
    ensures p in Eligible(ps, purpose) <==> p in Eligible(ps[..n], purpose)
    decreases |ps|
  {
    if n == |ps| {
      assert ps[..n] == ps;
    } else {
      var front := ps[..|ps| - 1];
      assert front[..n] == ps[..n] && ps[n..] == front[n..] + [ps[|ps| - 1]];
      EligibleStays(front, purpose, n, p);
    }
  }

  /** A stored provider takes part exactly when it is enabled for the purpose and fewer than eight such come before it. */
  lemma StoredTakesPart(ps: seq<Provider>, purpose: string, i: nat)
    requires Distinct(IdOf, ps) && i < |ps| && !ps[i].fromEnv
    ensures ps[i] in Eligible(ps, purpose) <==>
            ps[i].enabled && purpose in ps[i].scopes && |Rivals(ps, purpose, i)| < MAX_CHAIN
  {
    var p := ps[i];
    forall k | i < k < |ps| ensures ps[k] != p { assert IdOf(ps[i]) != IdOf(ps[k]); }
    assert p !in ps[i + 1..];
    EligibleStays(ps, purpose, i + 1, p);
    StoresAreRivals(ps, purpose, i);
    assert ps[..i + 1][..i] == ps[..i];
    forall k | 0 <= k < i ensures ps[k] != p { assert IdOf(ps[k]) != IdOf(ps[i]); }
    assert p !in ps[..i];
    EligibleMembers(ps[..i], purpose);
  }

  // ---- Who is contacted. ----

  function Contacted(attempts: seq<Attempt>): seq<Provider>
  {
    seq(|attempts|, i requires 0 <= i < |attempts| => attempts[i].provider)
  }

  ghost predicate InTime(order: seq<Provider>, i: nat, now: nat, deadline: nat, attempts: seq<Attempt>)
    requires i <= |order|
  {
    && |attempts| <= |order| - i
    && forall k | 0 <= k < |attempts| ::
         && attempts[k].provider == order[i + k] && attempts[k].called == Usable(order[i + k])
         && now <= attempts[k].started < deadline && attempts[k].started + attempts[k].allotted <= deadline
  }

  /** Attempts follow the list one by one; none starts, or is meant to end, after the deadline. */
  lemma {:induction false} AttemptsFollow(order: seq<Provider>, i: nat, now: nat, deadline: nat, turns: nat -> Turn)
    requires i <= |order|
    ensures InTime(order, i, now, deadline, Simulate(order, i, now, deadline, turns).0)
    decreases |order| - i
  {
    if i < |order| {
      var t, p, attempts := turns(i), order[i], Simulate(order, i, now, deadline, turns).0;
      var at := now + t.idle;
      if !t.left && at < deadline {
        ShareFits(deadline - at, |order| - i);
        if !t.abandoned && !Succeeds(p, t, Allotment(p, deadline - at, |order| - i)) {
          AttemptsFollow(order, i + 1, at + t.took, deadline, turns);
          var rest := Simulate(order, i + 1, at + t.took, deadline, turns).0;
          forall k | 0 < k < |attempts| ensures attempts[k] == rest[k - 1] && order[i + k] == order[i + 1 + (k - 1)] {}
        }
      }
    }
  }

  ghost predicate LastDecides(attempts: seq<Attempt>, outcome: Outcome, i: nat, turns: nat -> Turn)
  {
    && !outcome.Unavailable?
    && (forall k | 0 <= k < |attempts| - 1 :: !Succeeds(attempts[k].provider, turns(i + k), attempts[k].allotted))
    && (outcome.Won? ==>
          && attempts != [] && outcome.provider == attempts[|attempts| - 1].provider
          && Succeeds(outcome.provider, turns(i + |attempts| - 1), attempts[|attempts| - 1].allotted))
    && (outcome.AllFailed? && attempts != [] ==>
          !Succeeds(attempts[|attempts| - 1].provider, turns(i + |attempts| - 1), attempts[|attempts| - 1].allotted))
  }

  /** Only the last attempt can succeed, and then its provider wins. */
  lemma {:induction false} FirstSuccessWins(order: seq<Provider>, i: nat, now: nat, deadline: nat, turns: nat -> Turn)
    requires i <= |order|
    ensures var (attempts, outcome) := Simulate(order, i, now, deadline, turns); LastDecides(attempts, outcome, i, turns)
    decreases |order| - i
  {
    if i < |order| {
      var t, p := turns(i), order[i];
      var at := now + t.idle;
      if !t.left && at < deadline {
        var a := Attempt(p, at, Allotment(p, deadline - at, |order| - i), Usable(p));
        if !t.abandoned && !Succeeds(p, t, a.allotted) {
          FirstSuccessWins(order, i + 1, at + t.took, deadline, turns);
          var (rest, outcome) := Simulate(order, i + 1, at + t.took, deadline, turns);
          FirstThenRest(a, rest, outcome, i, turns);
          assert Simulate(order, i, now, deadline, turns) == ([a] + rest, outcome);
        } else {
          OneDecides(a, i, turns);
          assert Simulate(order, i, now, deadline, turns) == ([a], if t.abandoned then Cancelled else Won(p));
        }
      } else {
        assert Simulate(order, i, now, deadline, turns) == ([], if t.left then Cancelled else AllFailed);
      }
    }
  }

  /** Where the clock stands after these attempts. */
  function TimeAfter(attempts: seq<Attempt>, i: nat, now: nat, turns: nat -> Turn): nat
  {
    if attempts == [] then now else attempts[|attempts| - 1].started + turns(i + |attempts| - 1).took
  }

  /** A provider whose settings are in order answered, acceptably and before its time was up. */
  predicate AnswersInTime(a: Attempt, t: Turn)
  {
    (a.provider.fromEnv || (5 <= a.provider.timeout <= 60 && a.provider.sound)) && t.accepted && t.took < a.allotted
  }

  /** The attempt starts when the one before has ended, and has its own timeout or an equal share of what is left. */
  ghost predicate InLine(order: seq<Provider>, i: nat, now: nat, deadline: nat, attempts: seq<Attempt>, turns: nat -> Turn, k: nat)
    requires k < |attempts| && i + |attempts| <= |order|
  {
    var a, p, t := attempts[k], order[i + k], turns(i + k);
    && a.provider == p && a.started < deadline
    && a.started == (if k == 0 then now else attempts[k - 1].started + turns(i + k - 1).took) + t.idle
    && a.allotted == Min(p.timeout * SECOND, (deadline - a.started) / (|order| - i - k))
    && (k < |attempts| - 1 ==> !t.abandoned && !AnswersInTime(a, t))
  }

  ghost predicate OneAfterTheOther(order: seq<Provider>, i: nat, now: nat, deadline: nat, attempts: seq<Attempt>, turns: nat -> Turn)
  {
    i + |attempts| <= |order| && forall k: nat | k < |attempts| :: InLine(order, i, now, deadline, attempts, turns, k)
  }

  /** Why a walk stops: somebody answered in time, the caller is gone, the list is at its end, or the time is up. */
  ghost predicate StopsBecause(order: seq<Provider>, i: nat, now: nat, deadline: nat, attempts: seq<Attempt>, outcome: Outcome,
                               turns: nat -> Turn)
  {
    var n := |attempts|;
    var gone := n > 0 && turns(i + n - 1).abandoned;
    var answered := n > 0 && AnswersInTime(attempts[n - 1], turns(i + n - 1));
    if gone then outcome.Cancelled?
    else if answered then outcome == Won(attempts[n - 1].provider)
    else if i + n >= |order| then outcome.AllFailed?
    else if turns(i + n).left then outcome.Cancelled?
    else outcome.AllFailed? && TimeAfter(attempts, i, now, turns) + turns(i + n).idle >= deadline
  }

  lemma LaterInLine(order: seq<Provider>, i: nat, now: nat, deadline: nat, a: Attempt, rest: seq<Attempt>, turns: nat -> Turn, k: nat)
    requires k < |rest| && i + 1 + |rest| <= |order|
    requires InLine(order, i + 1, a.started + turns(i).took, deadline, rest, turns, k)
    ensures InLine(order, i, now, deadline, [a] + rest, turns, k + 1)
  {
    assert ([a] + rest)[k + 1] == rest[k] && ([a] + rest)[k] == if k == 0 then a else rest[k - 1];
    assert i + (k + 1) == i + 1 + k;
  }

  lemma OneMoreInLine(order: seq<Provider>, i: nat, now: nat, deadline: nat, a: Attempt, rest: seq<Attempt>, turns: nat -> Turn)
    requires i < |order| && InLine(order, i, now, deadline, [a], turns, 0) && !turns(i).abandoned && !AnswersInTime(a, turns(i))
    requires OneAfterTheOther(order, i + 1, a.started + turns(i).took, deadline, rest, turns)
    ensures OneAfterTheOther(order, i, now, deadline, [a] + rest, turns)
  {
    forall k: nat | k < |[a] + rest| ensures InLine(order, i, now, deadline, [a] + rest, turns, k) {
      if k > 0 { LaterInLine(order, i, now, deadline, a, rest, turns, k - 1); }
    }
  }

  lemma StopsForTheSame(order: seq<Provider>, i: nat, now: nat, deadline: nat, a: Attempt, rest: seq<Attempt>, outcome: Outcome,
                        turns: nat -> Turn)
    requires !turns(i).abandoned && !AnswersInTime(a, turns(i))
    requires StopsBecause(order, i + 1, a.started + turns(i).took, deadline, rest, outcome, turns)
    ensures StopsBecause(order, i, now, deadline, [a] + rest, outcome, turns)
  {
    var all := [a] + rest;
    if rest != [] { assert all[|all| - 1] == rest[|rest| - 1]; }
    assert i + |all| == i + 1 + |rest|;
  }

  /** What a walk does first: it stops before anybody is tried, or tries one and stops or goes on. */
  lemma FirstStep(order: seq<Provider>, i: nat, now: nat, deadline: nat, turns: nat -> Turn)
    requires i < |order|
    ensures var t, p, at := turns(i), order[i], now + turns(i).idle;
            Simulate(order, i, now, deadline, turns) ==
            if t.left then ([], Cancelled)
            else if at >= deadline then ([], AllFailed)
            else
              var a := Attempt(p, at, Allotment(p, deadline - at, |order| - i), Usable(p));
              if t.abandoned then ([a], Cancelled)
              else if AnswersInTime(a, t) then ([a], Won(p))
              else
                var rest := Simulate(order, i + 1, at + t.took, deadline, turns);
                ([a] + rest.0, rest.1)
  {
  }

  lemma OneInLine(order: seq<Provider>, i: nat, now: nat, deadline: nat, turns: nat -> Turn)
    requires i < |order| && now + turns(i).idle < deadline
    ensures var at := now + turns(i).idle;
            var a := Attempt(order[i], at, Allotment(order[i], deadline - at, |order| - i), Usable(order[i]));
            InLine(order, i, now, deadline, [a], turns, 0) && OneAfterTheOther(order, i, now, deadline, [a], turns)
  {
  }

  ghost predicate Traced(order: seq<Provider>, i: nat, now: nat, deadline: nat, walk: (seq<Attempt>, Outcome), turns: nat -> Turn)
  {
    && OneAfterTheOther(order, i, now, deadline, walk.0, turns)
    && StopsBecause(order, i, now, deadline, walk.0, walk.1, turns)
  }

  lemma StopsAtOnce(order: seq<Provider>, i: nat, now: nat, deadline: nat, turns: nat -> Turn)
    requires i <= |order| && (i < |order| ==> turns(i).left || now + turns(i).idle >= deadline)
    ensures Traced(order, i, now, deadline, Simulate(order, i, now, deadline, turns), turns)
  {
  }

  lemma StopsAfterOne(order: seq<Provider>, i: nat, now: nat, deadline: nat, a: Attempt, turns: nat -> Turn)
    requires i < |order| && OneAfterTheOther(order, i, now, deadline, [a], turns)
    ensures turns(i).abandoned ==> Traced(order, i, now, deadline, ([a], Cancelled), turns)
    ensures !turns(i).abandoned && AnswersInTime(a, turns(i)) ==> Traced(order, i, now, deadline, ([a], Won(a.provider)), turns)
  {
  }

  lemma GoesOn(order: seq<Provider>, i: nat, now: nat, deadline: nat, a: Attempt, rest: (seq<Attempt>, Outcome), turns: nat -> Turn)
    requires i < |order| && InLine(order, i, now, deadline, [a], turns, 0) && !turns(i).abandoned && !AnswersInTime(a, turns(i))
    requires Traced(order, i + 1, a.started + turns(i).took, deadline, rest, turns)
    ensures Traced(order, i, now, deadline, ([a] + rest.0, rest.1), turns)
  {
    OneMoreInLine(order, i, now, deadline, a, rest.0, turns);
    StopsForTheSame(order, i, now, deadline, a, rest.0, rest.1, turns);
  }

  /** A walk, attempt by attempt: when each starts, what it is allotted, and why the walk ends where it does. */
  lemma {:induction false} WalkIsExact(order: seq<Provider>, i: nat, now: nat, deadline: nat, turns: nat -> Turn)
    requires i <= |order|
    ensures Traced(order, i, now, deadline, Simulate(order, i, now, deadline, turns), turns)
    decreases |order| - i
  {
    if i == |order| || turns(i).left || now + turns(i).idle >= deadline {
      StopsAtOnce(order, i, now, deadline, turns);
    } else {
      var t, p, at := turns(i), order[i], now + turns(i).idle;
      var a := Attempt(p, at, Allotment(p, deadline - at, |order| - i), Usable(p));
      FirstStep(order, i, now, deadline, turns);
      OneInLine(order, i, now, deadline, turns);
      StopsAfterOne(order, i, now, deadline, a, turns);
      if !t.abandoned && !AnswersInTime(a, t) {
        WalkIsExact(order, i + 1, at + t.took, deadline, turns);
        GoesOn(order, i, now, deadline, a, Simulate(order, i + 1, at + t.took, deadline, turns), turns);
      }
    }
  }

  lemma OneDecides(a: Attempt, i: nat, turns: nat -> Turn)
    ensures LastDecides([a], Cancelled, i, turns)
    ensures Succeeds(a.provider, turns(i), a.allotted) ==> LastDecides([a], Won(a.provider), i, turns)
  {
  }

  lemma FirstThenRest(a: Attempt, rest: seq<Attempt>, outcome: Outcome, i: nat, turns: nat -> Turn)
    requires LastDecides(rest, outcome, i + 1, turns) && !Succeeds(a.provider, turns(i), a.allotted)
    ensures LastDecides([a] + rest, outcome, i, turns)
  {
    var all := [a] + rest;
    forall k | 0 <= k < |all| - 1 ensures !Succeeds(all[k].provider, turns(i + k), all[k].allotted) {
      if k > 0 { assert !Succeeds(rest[k - 1].provider, turns(i + 1 + (k - 1)), rest[k - 1].allotted); }
    }
    assert i + |all| - 1 == i + 1 + |rest| - 1;
  }

  lemma ShareFits(left: nat, n: nat)
    requires n > 0
    ensures 0 <= left / n <= left
  {
    var q := left / n;
    assert left == q * n + left % n;
    if q > 0 { AtLeastOnce(n, q); }
  }

  lemma ContactedIsPrefix(plan: seq<Provider>, start: nat, deadline: nat, turns: nat -> Turn)
    ensures Contacted(Simulate(plan, 0, start, deadline, turns).0) <= plan
  {
    AttemptsFollow(plan, 0, start, deadline, turns);
    var attempts := Simulate(plan, 0, start, deadline, turns).0;
    forall k | 0 <= k < |attempts| ensures attempts[k].provider == plan[0 + k] {}
    assert Contacted(attempts) == plan[..|attempts|];
  }

  /** A prefix of a list has what the whole list has. */
  lemma PrefixKeeps(plan: seq<Provider>, contacted: seq<Provider>, purpose: string)
    requires contacted <= plan && Distinct(IdOf, plan) && ByPriority(plan)
    requires forall p | p in plan :: p.enabled && purpose in p.scopes
    ensures Distinct(IdOf, contacted) && ByPriority(contacted) && |contacted| <= |plan|
    ensures forall p | p in contacted :: p.enabled && purpose in p.scopes
  {
    assert forall i | 0 <= i < |contacted| :: contacted[i] == plan[i] && plan[i] in plan;
  }

  lemma PlanFacts(loaded: Loading, env: Option<Provider>, purpose: string, cursors: Cursors, replies: nat -> Reply)
    requires Rows(if loaded.Loaded? then loaded.items else [], env)
    ensures var chain := Chain(loaded, env, purpose);
            var plan := Plan(chain, cursors, purpose, replies);
            && multiset(plan) == multiset(chain) && Distinct(IdOf, plan) && ByPriority(plan) && |plan| <= MAX_CHAIN + 1
            && forall p | p in plan :: p.enabled && purpose in p.scopes
  {
    var chain := Chain(loaded, env, purpose);
    var plan := Plan(chain, cursors, purpose, replies);
    ChainFacts(loaded, env, purpose);
    PlanIsRotatedChain(chain, cursors, purpose, replies);
    DistinctPermutation(IdOf, chain, plan);
    SameMembers(chain, plan);
  }

  /**
   Of any operation: the providers contacted are a prefix of the rotated chain. None is contacted twice, none of a
   lower level before one of a higher, none that is disabled or out of scope.
   */
  lemma ContactsArePrefix(loaded: Loading, env: Option<Provider>, purpose: string, cursors: Cursors,
                          replies: nat -> Reply, start: nat, turns: nat -> Turn)
    requires Rows(if loaded.Loaded? then loaded.items else [], env)
    ensures var plan := Plan(Chain(loaded, env, purpose), cursors, purpose, replies);
            var contacted := Contacted(Simulate(plan, 0, start, start + CHAIN_TIMEOUT, turns).0);
            && contacted <= plan && multiset(plan) == multiset(Chain(loaded, env, purpose))
            && Distinct(IdOf, contacted) && ByPriority(contacted) && |contacted| <= MAX_CHAIN + 1
            && (forall p | p in contacted :: p.enabled && purpose in p.scopes)
  {
    var plan := Plan(Chain(loaded, env, purpose), cursors, purpose, replies);
    PlanFacts(loaded, env, purpose, cursors, replies);
    ContactedIsPrefix(plan, start, start + CHAIN_TIMEOUT, turns);
    PrefixKeeps(plan, Contacted(Simulate(plan, 0, start, start + CHAIN_TIMEOUT, turns).0), purpose);
  }

  // ---- The shared budget. ----

  function Max(a: int, b: int): int { if a < b then b else a }

  /** Nothing is lost between the calls, and no call outlasts what it was allotted. */
  ghost predicate Punctual(attempts: seq<Attempt>, first: nat, turns: nat -> Turn)
  {
    && (forall i: nat :: turns(i).idle == 0)
    && (forall k | 0 <= k < |attempts| :: turns(first + k).took <= Max(0, attempts[k].allotted))
  }

  lemma Times(a: int, b: int, n: nat)
    requires a <= b
    ensures a * n <= b * n
  {
    assert (b - a) * n >= 0;
  }

  lemma ShareAtLeast(left: nat, n: nat, q: nat)
    requires n > 0 && left >= q * n
    ensures left / n >= q
  {
    if left / n < q { Times(left / n + 1, q, n); }
  }

  /** An equal share is never worth less after somebody took no more than theirs. */
  lemma ShareNeverShrinks(left: nat, n: nat, took: nat, q: nat)
    requires n > 0 && left >= q * n && took <= left / n
    ensures left - took >= q * (n - 1) && left / n >= q
  {
    ShareAtLeast(left, n, q);
    var share := left / n;
    assert left >= share * n == share * (n - 1) + share;
    Times(q, share, n - 1);
  }

  lemma RestIsPunctual(a: Attempt, rest: seq<Attempt>, i: nat, turns: nat -> Turn)
    requires Punctual([a] + rest, i, turns)
    ensures Punctual(rest, i + 1, turns) && turns(i).took <= Max(0, a.allotted)
  {
    var attempts := [a] + rest;
    assert attempts[0] == a && turns(i + 0).took <= Max(0, attempts[0].allotted);
    forall k | 0 <= k < |rest| ensures turns(i + 1 + k).took <= Max(0, rest[k].allotted) {
      assert attempts[k + 1] == rest[k];
      assert turns(i + (k + 1)).took <= Max(0, attempts[k + 1].allotted);
    }
  }

  /** Everyone in the list was allotted their own timeout or a share of `q`. */
  ghost predicate Fair(attempts: seq<Attempt>, q: nat)
  {
    forall a | a in attempts :: a.allotted >= Min(a.provider.timeout * SECOND, q)
  }

  /** A walk over `n` providers that fails has tried them all, and nobody was allotted too little. */
  ghost predicate Shared(r: (seq<Attempt>, Outcome), n: nat, q: nat)
  {
    Fair(r.0, q) && (r.1.AllFailed? ==> |r.0| == n)
  }

  lemma SharedOneMore(a: Attempt, rest: (seq<Attempt>, Outcome), n: nat, q: nat)
    requires Shared(rest, n, q) && a.allotted >= Min(a.provider.timeout * SECOND, q)
    ensures Shared(([a] + rest.0, rest.1), n + 1, q)
  {
  }

  /** An equal share of at least `q`, and what is left when it has been used. */
  lemma FairShare(p: Provider, left: nat, n: nat, took: nat, q: nat)
    requires n > 0 && left >= q * n && took <= Max(0, Allotment(p, left, n))
    ensures Allotment(p, left, n) >= Min(p.timeout * SECOND, q) && took <= left && left - took >= q * (n - 1)
  {
    ShareFits(left, n);
    ShareNeverShrinks(left, n, took, q);
  }

  /** What a walk does when its next turn comes without delay and in time. */
  lemma NextTurn(order: seq<Provider>, i: nat, now: nat, deadline: nat, turns: nat -> Turn)
    requires i < |order| && now < deadline && turns(i).idle == 0 && !turns(i).left
    ensures var t, p := turns(i), order[i];
            var a := Attempt(p, now, Allotment(p, deadline - now, |order| - i), Usable(p));
            Simulate(order, i, now, deadline, turns)
            == if t.abandoned then ([a], Cancelled)
               else if Succeeds(p, t, a.allotted) then ([a], Won(p))
               else
                 var rest := Simulate(order, i + 1, now + t.took, deadline, turns);
                 ([a] + rest.0, rest.1)
  {
  }

  /** A walk that does not begin. */
  lemma NothingShared(order: seq<Provider>, i: nat, now: nat, deadline: nat, turns: nat -> Turn, q: nat)
    requires i == |order| || (i < |order| && turns(i).left)
    ensures Shared(Simulate(order, i, now, deadline, turns), |order| - i, q)
  {
  }

  /** A walk that ends with its first provider. */
  lemma FirstShared(a: Attempt, ended: Outcome, i: nat, turns: nat -> Turn, left: nat, n: nat, q: nat)
    requires n > 0 && left >= q * n && a.allotted == Allotment(a.provider, left, n) && !ended.AllFailed?
    requires Punctual([a], i, turns)
    ensures Shared(([a], ended), n, q)
  {
    assert [a] + [] == [a];
    RestIsPunctual(a, [], i, turns);
    FairShare(a.provider, left, n, turns(i).took, q);
  }

  /** A walk that goes on with the rest of the time. */
  lemma RestHasItsShare(a: Attempt, rest: seq<Attempt>, i: nat, turns: nat -> Turn, left: nat, n: nat, q: nat)
    requires n > 0 && left >= q * n && a.allotted == Allotment(a.provider, left, n)
    requires Punctual([a] + rest, i, turns)
    ensures Punctual(rest, i + 1, turns) && a.allotted >= Min(a.provider.timeout * SECOND, q)
    ensures turns(i).took <= left && left - turns(i).took >= q * (n - 1)
  {
    RestIsPunctual(a, rest, i, turns);
    FairShare(a.provider, left, n, turns(i).took, q);
  }

  lemma {:induction false} SharesHold(order: seq<Provider>, i: nat, now: nat, deadline: nat, turns: nat -> Turn, q: nat)
    requires i <= |order| && now <= deadline && deadline - now >= q * (|order| - i) && q > 0
    requires Punctual(Simulate(order, i, now, deadline, turns).0, i, turns)
    ensures Shared(Simulate(order, i, now, deadline, turns), |order| - i, q)
    decreases |order| - i
  {
    if i == |order| || turns(i).left {
      NothingShared(order, i, now, deadline, turns, q);
    } else {
      var n, left := |order| - i, deadline - now;
      assert left >= q * n >= n by { AtLeastOnce(q, n); }
      var t, p := turns(i), order[i];
      var a := Attempt(p, now, Allotment(p, left, n), Usable(p));
      NextTurn(order, i, now, deadline, turns);
      if !t.abandoned && !Succeeds(p, t, a.allotted) {
        var rest := Simulate(order, i + 1, now + t.took, deadline, turns);
        RestHasItsShare(a, rest.0, i, turns, left, n, q);
        SharesHold(order, i + 1, now + t.took, deadline, turns, q);
        SharedOneMore(a, rest, n - 1, q);
      } else {
        FirstShared(a, if t.abandoned then Cancelled else Won(p), i, turns, left, n, q);
      }
    }
  }

  /** With a chain of at most nine, each provider contacted gets its own timeout or twenty seconds. */
  lemma EveryoneGetsTwentySeconds(order: seq<Provider>, start: nat, turns: nat -> Turn)
    requires |order| <= MAX_CHAIN + 1
    requires Punctual(Simulate(order, 0, start, start + CHAIN_TIMEOUT, turns).0, 0, turns)
    ensures var (attempts, outcome) := Simulate(order, 0, start, start + CHAIN_TIMEOUT, turns);
            && (forall a | a in attempts :: a.allotted >= Min(a.provider.timeout * SECOND, 20 * SECOND))
            && (outcome.AllFailed? ==> |attempts| == |order|)
  {
    SharesHold(order, 0, start, start + CHAIN_TIMEOUT, turns, 20 * SECOND);
  }

  // ---- How much is allotted in all. ----

  function Granted(attempts: seq<Attempt>): nat
  {
    if attempts == [] then 0 else Max(0, attempts[0].allotted) + Granted(attempts[1..])
  }

  /** What would be allotted if every provider failed at once. */
  function Promised(order: seq<Provider>, i: nat, left: nat): nat
    requires i <= |order|
    decreases |order| - i
  {
    if i == |order| then 0 else Max(0, Allotment(order[i], left, |order| - i)) + Promised(order, i + 1, left)
  }

  lemma ShareMonotone(a: nat, b: nat, n: nat)
    requires a <= b && n > 0
    ensures a / n <= b / n
  {
    assert a >= (a / n) * n;
    ShareAtLeast(b, n, a / n);
  }

  lemma {:induction false} PromisedMonotone(order: seq<Provider>, i: nat, less: nat, more: nat)
    requires i <= |order| && less <= more
    ensures Promised(order, i, less) <= Promised(order, i, more)
    decreases |order| - i
  {
    if i < |order| {
      ShareMonotone(less, more, |order| - i);
      PromisedMonotone(order, i + 1, less, more);
    }
  }

  /** No run allots more than the one in which everybody fails at once. */
  lemma {:induction false} GrantedIsPromised(order: seq<Provider>, i: nat, now: nat, deadline: nat, turns: nat -> Turn)
    requires i <= |order| && now <= deadline
    ensures Granted(Simulate(order, i, now, deadline, turns).0) <= Promised(order, i, deadline - now)
    decreases |order| - i
  {
    if i < |order| {
      var t, p := turns(i), order[i];
      var at := now + t.idle;
      if !t.left && at < deadline {
        var a := Attempt(p, at, Allotment(p, deadline - at, |order| - i), Usable(p));
        ShareMonotone(deadline - at, deadline - now, |order| - i);
        if t.abandoned || Succeeds(p, t, a.allotted) {
          GrantedFirst(a, []);
          assert Simulate(order, i, now, deadline, turns).0 == [a] + [];
        } else if at + t.took <= deadline {
          var rest := Simulate(order, i + 1, at + t.took, deadline, turns).0;
          GrantedIsPromised(order, i + 1, at + t.took, deadline, turns);
          PromisedMonotone(order, i + 1, deadline - (at + t.took), deadline - now);
          GrantedFirst(a, rest);
          assert Simulate(order, i, now, deadline, turns).0 == [a] + rest;
        } else {
          LateIsSilent(order, i + 1, at + t.took, deadline, turns);
          GrantedFirst(a, []);
          assert Simulate(order, i, now, deadline, turns).0 == [a] + [];
        }
      } else {
        assert Simulate(order, i, now, deadline, turns).0 == [];
      }
    }
  }

  lemma GrantedFirst(a: Attempt, rest: seq<Attempt>)
    ensures Granted([a] + rest) == Max(0, a.allotted) + Granted(rest)
  {
    assert ([a] + rest)[1..] == rest;
  }

  lemma LateIsSilent(order: seq<Provider>, i: nat, now: nat, deadline: nat, turns: nat -> Turn)
    requires i <= |order| && now > deadline
    ensures Simulate(order, i, now, deadline, turns).0 == []
  {
  }

  const AT_ONCE := Turn(0, false, 0, false, false)

  lemma {:induction false} AllFailAtOnce(order: seq<Provider>, i: nat, now: nat, deadline: nat)
    requires i <= |order| && now < deadline
    ensures Granted(Simulate(order, i, now, deadline, k => AT_ONCE).0) == Promised(order, i, deadline - now)
    decreases |order| - i
  {
    if i < |order| {
      AllFailAtOnce(order, i + 1, now, deadline);
      var a := Attempt(order[i], now, Allotment(order[i], deadline - now, |order| - i), Usable(order[i]));
      var rest := Simulate(order, i + 1, now, deadline, k => AT_ONCE).0;
      assert ([a] + rest)[1..] == rest;
    }
  }

  /** Everything one run allots. */
  function GrantedIn(order: seq<Provider>, start: nat, turns: nat -> Turn): nat
  {
    Granted(Simulate(order, 0, start, start + CHAIN_TIMEOUT, turns).0)
  }

  /**
   The allotments of every possible run fit the budget exactly when the timeouts already fit it under equal shares
   of the whole budget: the time of a provider that fails early is allotted again.
   */
  lemma AllotmentsFit(order: seq<Provider>, start: nat)
    ensures (forall turns: nat -> Turn :: GrantedIn(order, start, turns) <= CHAIN_TIMEOUT)
            <==> Promised(order, 0, CHAIN_TIMEOUT) <= CHAIN_TIMEOUT
  {
    AllFailAtOnce(order, 0, start, start + CHAIN_TIMEOUT);
    assert GrantedIn(order, start, k => AT_ONCE) == Promised(order, 0, CHAIN_TIMEOUT);
    forall turns: nat -> Turn ensures GrantedIn(order, start, turns) <= Promised(order, 0, CHAIN_TIMEOUT) {
      GrantedIsPromised(order, 0, start, start + CHAIN_TIMEOUT, turns);
    }
  }

  lemma {:induction false} AllStored(items: seq<Provider>)
    requires forall p | p in items :: p.id != ENV_ID
    ensures Stored(items) == items
  {
    if items != [] { AllStored(items[..|items| - 1]); }
  }

  /** Up to eight stored providers that are enabled and in scope all take part. */
  lemma {:induction false} AllTakePart(ps: seq<Provider>, purpose: string)
    requires |ps| <= MAX_CHAIN && forall p | p in ps :: p.enabled && purpose in p.scopes && !p.fromEnv
    ensures Eligible(ps, purpose) == ps && Stores(ps) == |ps|
  {
    if ps != [] {
      var front, p := ps[..|ps| - 1], ps[|ps| - 1];
      assert p in ps && forall x | x in front :: x in ps;
      AllTakePart(front, purpose);
      FrontAndLast(ps);
    }
  }

  lemma FrontAndLast(ps: seq<Provider>)
    requires ps != []
    ensures ps == ps[..|ps| - 1] + [ps[|ps| - 1]]
  {
  }

  lemma PlanHoldsAll(items: seq<Provider>, purpose: string, cursors: Cursors, replies: nat -> Reply)
    requires |items| <= MAX_CHAIN
    requires forall p | p in items :: p.id != ENV_ID && p.enabled && purpose in p.scopes && !p.fromEnv
    ensures multiset(Plan(Chain(Loaded(items), None, purpose), cursors, purpose, replies)) == multiset(items)
  {
    var sorted := Sort(Before, items);
    AllStored(items);
    assert Candidates(items, None) == items;
    SortedProviders(items);
    SameMembers(items, sorted);
    SameLength(items, sorted);
    AllTakePart(sorted, purpose);
    PlanIsRotatedChain(sorted, cursors, purpose, replies);
  }

  lemma SameLength(a: seq<Provider>, b: seq<Provider>)
    requires multiset(a) == multiset(b)
    ensures |a| == |b|
  {
    assert |multiset(a)| == |a| && |multiset(b)| == |b|;
  }

  lemma FourLongTimeouts(order: seq<Provider>, start: nat)
    requires |order| == 4 && forall p | p in order :: p.timeout == 60
    ensures GrantedIn(order, start, k => AT_ONCE) == 225 * SECOND
  {
    AllFailAtOnce(order, 0, start, start + CHAIN_TIMEOUT);
    assert Promised(order, 4, CHAIN_TIMEOUT) == 0;
    assert Promised(order, 3, CHAIN_TIMEOUT) == 60 * SECOND;
    assert Promised(order, 2, CHAIN_TIMEOUT) == 120 * SECOND;
    assert Promised(order, 1, CHAIN_TIMEOUT) == 180 * SECOND;
  }

  /**
   Any four stored providers with the longest timeout, loaded for an operation in their scope, may be allotted 225
   seconds of the 180, whatever their priorities and wherever the rotation stands.
   */
  lemma FourSlowProviders(items: seq<Provider>, purpose: string, cursors: Cursors, replies: nat -> Reply, start: nat)
    requires |items| == 4 && Rows(items, None)
    requires forall p | p in items :: p.id != ENV_ID && p.enabled && purpose in p.scopes && p.sound && p.timeout == 60
    ensures GrantedIn(Plan(Chain(Loaded(items), None, purpose), cursors, purpose, replies), start, k => AT_ONCE)
            == 225 * SECOND
  {
    var plan := Plan(Chain(Loaded(items), None, purpose), cursors, purpose, replies);
    PlanHoldsAll(items, purpose, cursors, replies);
    SameLength(items, plan);
    SameMembers(items, plan);
    FourLongTimeouts(plan, start);
  }
}
