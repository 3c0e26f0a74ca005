/**
 One operation over a chain of providers: priority levels in order, each level rotated, one provider at a time,
 all within one shared time budget. Times are nanoseconds.

 Loading, endpoint and key checks, the calls themselves and the caller's cancellation are the environment.
 */
module Failover {
  import opened Common
  import opened ProviderRotation
  import opened Sorting

  /** `sound`: the endpoint is acceptable and the key can be opened. `timeout` is in seconds. */
  datatype Provider = Provider(
    id: Uuid, priority: int, enabled: bool, scopes: set<string>, timeout: int, fromEnv: bool, sound: bool)

  const ENV_ID: Uuid := 0
  const MAX_CHAIN := 8
  const SECOND := 1_000_000_000
  const CHAIN_TIMEOUT := 180 * SECOND

  // ---- The order of all providers. ----

  predicate Before(p: Provider, q: Provider)
  {
    if p.priority != q.priority then p.priority < q.priority
    else if p.fromEnv != q.fromEnv then !p.fromEnv
    else p.id < q.id
  }

  /** Stored settings never replace the credential, the endpoint or the identity of the process's own provider. */
  function Environment(env: Provider, settings: Option<Provider>): Provider
  {
    if settings.None? then env
    else
      var s := settings.value;
      env.(priority := s.priority, scopes := s.scopes, enabled := s.enabled, timeout := s.timeout)
  }

  function Stored(items: seq<Provider>): seq<Provider>
  {
    if items == [] then []
    else Stored(items[..|items| - 1]) + (if items[|items| - 1].id == ENV_ID then [] else [items[|items| - 1]])
  }

  function Settings(items: seq<Provider>): Option<Provider>
  {
    if items == [] then None
    else if items[|items| - 1].id == ENV_ID then Some(items[|items| - 1]) else Settings(items[..|items| - 1])
  }

  function Candidates(items: seq<Provider>, env: Option<Provider>): seq<Provider>
  {
    Stored(items) + if env.None? then [] else [Environment(env.value, Settings(items))]
  }

  lemma BeforeIsAnOrder()
    ensures StrictWeakOrder(Before)
  {
  }

  lemma SortedProviders(ps: seq<Provider>)
    ensures Ordered(Before, Sort(Before, ps)) && multiset(Sort(Before, ps)) == multiset(ps)
  {
    BeforeIsAnOrder();
    SortIsOrdered(Before, ps);
    SortIsPermutation(Before, ps);
  }

  method Gather(items: seq<Provider>, env: Option<Provider>) returns (r: seq<Provider>)
    ensures r == Candidates(items, env)
  {
    var settings := None;
    r := [];
    for i := 0 to |items|
      invariant r == Stored(items[..i]) && settings == Settings(items[..i])
    {
      assert items[..i + 1][..i] == items[..i];
      if items[i].id == ENV_ID { settings := Some(items[i]); } else { r := r + [items[i]]; }
    }
    assert items[..|items|] == items;
    if env.Some? { r := r + [Environment(env.value, settings)]; }
  }

  method Providers(items: seq<Provider>, env: Option<Provider>) returns (r: seq<Provider>)
    ensures r == Sort(Before, Candidates(items, env))
    ensures Ordered(Before, r) && multiset(r) == multiset(Candidates(items, env))
  {
    var gathered := Gather(items, env);
    r := Sort(Before, gathered);
    SortedProviders(gathered);
  }

  // ---- Who takes part, and in which groups. ----

  function Stores(ps: seq<Provider>): nat
  {
    if ps == [] then 0 else Stores(ps[..|ps| - 1]) + if ps[|ps| - 1].fromEnv then 0 else 1
  }

  function Eligible(ps: seq<Provider>, purpose: string): seq<Provider>
  {
    if ps == [] then []
    else
      var front, p := Eligible(ps[..|ps| - 1], purpose), ps[|ps| - 1];
      if !p.enabled || purpose !in p.scopes || (!p.fromEnv && Stores(front) >= MAX_CHAIN) then front else front + [p]
  }

  function Join(groups: seq<seq<Provider>>): seq<Provider>
  {
    if groups == [] then [] else Join(groups[..|groups| - 1]) + groups[|groups| - 1]
  }

  /** Adds a provider to the last group, or opens a new one when its priority differs. */
  function Place(groups: seq<seq<Provider>>, p: Provider): seq<seq<Provider>>
    requires NonEmpty(groups)
  {
    var n := |groups|;
    if n == 0 || groups[n - 1][0].priority != p.priority then groups + [[p]]
    else groups[n - 1 := groups[n - 1] + [p]]
  }

  /** Neighbours of equal priority form a group. */
  function GroupsOf(ps: seq<Provider>): (r: seq<seq<Provider>>)
    ensures NonEmpty(r)
  {
    if ps == [] then [] else Place(GroupsOf(ps[..|ps| - 1]), ps[|ps| - 1])
  }

  predicate NonEmpty(groups: seq<seq<Provider>>) { forall i | 0 <= i < |groups| :: |groups[i]| > 0 }

  // ---- The order in which an operation contacts them. ----

  function Rotate(group: seq<Provider>, offset: nat): (r: seq<Provider>)
    ensures |r| == |group|
  {
    seq(|group|, i requires 0 <= i < |group| => group[(i + offset) % |group|])
  }

  /** The cursors and the offsets after the first `n` groups have been started. */
  function Spin(c: Cursors, purpose: string, groups: seq<seq<Provider>>, replies: nat -> Reply, n: nat): (Cursors, seq<nat>)
    requires NonEmpty(groups) && n <= |groups|
  {
    if n == 0 then (c, [])
    else
      var (before, offsets) := Spin(c, purpose, groups, replies, n - 1);
      var g := groups[n - 1];
      var (after, offset) := Choose(before, Key(g[0].priority, purpose), |g|, replies(n - 1));
      (after, offsets + [offset])
  }

  function Order(c: Cursors, purpose: string, groups: seq<seq<Provider>>, replies: nat -> Reply, n: nat): seq<Provider>
    requires NonEmpty(groups) && n <= |groups|
  {
    if n == 0 then []
    else
      var g := groups[n - 1];
      var offset := Choose(Spin(c, purpose, groups, replies, n - 1).0, Key(g[0].priority, purpose), |g|, replies(n - 1)).1;
      Order(c, purpose, groups, replies, n - 1) + Rotate(g, offset)
  }

  // ---- One operation. ----

  /**
   The environment of one attempt: `idle` passes before it, `left` tells whether the caller is gone by then;
   the call takes `took`, answers acceptably or not, and the caller may be gone when it has ended.
   */
  datatype Turn = Turn(idle: nat, left: bool, took: nat, accepted: bool, abandoned: bool)
  datatype Attempt = Attempt(provider: Provider, started: nat, allotted: int, called: bool)
  datatype Outcome = Cancelled | Unavailable | AllFailed | Won(provider: Provider)

  function Min(a: int, b: int): int { if a < b then a else b }

  /** The smaller of the provider's own timeout and an equal share of what is left of the budget. */
  function Allotment(p: Provider, left: nat, waiting: nat): int
    requires waiting > 0
  {
    Min(p.timeout * SECOND, left / waiting)
  }

  predicate Usable(p: Provider) { p.fromEnv || (5 <= p.timeout <= 60 && p.sound) }

  predicate Succeeds(p: Provider, t: Turn, allotted: int) { Usable(p) && t.accepted && t.took < allotted }

  /** The simple form of an operation: one list of providers, from the `i`th on. */
  function Simulate(order: seq<Provider>, i: nat, now: nat, deadline: nat, turns: nat -> Turn): (seq<Attempt>, Outcome)
    requires i <= |order|
    decreases |order| - i
  {
    if i == |order| then ([], AllFailed)
    else
      var t, p := turns(i), order[i];
      var at := now + t.idle;
      if t.left then ([], Cancelled)
      else if at >= deadline then ([], AllFailed)
      else
        var a := Attempt(p, at, Allotment(p, deadline - at, |order| - i), Usable(p));
        if t.abandoned then ([a], Cancelled)
        else if Succeeds(p, t, a.allotted) then ([a], Won(p))
        else
          var (rest, outcome) := Simulate(order, i + 1, at + t.took, deadline, turns);
          ([a] + rest, outcome)
  }

  function Prepend(done: seq<Attempt>, rest: (seq<Attempt>, Outcome)): (seq<Attempt>, Outcome)
  {
    (done + rest.0, rest.1)
  }

  /** What the first groups contribute does not depend on the later ones. */
  lemma {:induction false} OrderPrefix(c: Cursors, purpose: string, groups: seq<seq<Provider>>, replies: nat -> Reply, g: nat, n: nat)
    requires NonEmpty(groups) && g <= n <= |groups|
    ensures Order(c, purpose, groups, replies, g) <= Order(c, purpose, groups, replies, n)
    decreases n
  {
    if g < n { OrderPrefix(c, purpose, groups, replies, g, n - 1); }
  }

  lemma {:induction false} OrderLength(c: Cursors, purpose: string, groups: seq<seq<Provider>>, replies: nat -> Reply, n: nat)
    requires NonEmpty(groups) && n <= |groups|
    ensures |Order(c, purpose, groups, replies, n)| == |Join(groups[..n])|
  {
    if n > 0 {
      OrderLength(c, purpose, groups, replies, n - 1);
      assert groups[..n][..n - 1] == groups[..n - 1];
    }
  }

  /** The grouping of the eligible providers. */
  method Grouped(ps: seq<Provider>, purpose: string) returns (groups: seq<seq<Provider>>)
    ensures groups == GroupsOf(Eligible(ps, purpose))
  {
    groups := [];
    var stores := 0;
    for i := 0 to |ps|
      invariant groups == GroupsOf(Eligible(ps[..i], purpose)) && stores == Stores(Eligible(ps[..i], purpose))
    {
      var p := ps[i];
      assert ps[..i + 1][..i] == ps[..i];
      if !p.enabled || purpose !in p.scopes { continue; }
      if !p.fromEnv {
        if stores >= MAX_CHAIN { continue; }
        stores := stores + 1;
      }
      ghost var front := Eligible(ps[..i], purpose);
      assert (front + [p])[..|front|] == front;
      var n := |groups|;
      if n == 0 || groups[n - 1][0].priority != p.priority {
        groups := groups + [[p]];
      } else {
        groups := groups[n - 1 := groups[n - 1] + [p]];
      }
    }
    assert ps[..|ps|] == ps;
  }

  lemma PrependAll(a: seq<Attempt>, b: seq<Attempt>, rest: (seq<Attempt>, Outcome))
    ensures Prepend(a, Prepend(b, rest)) == Prepend(a + b, rest)
    ensures Prepend([], rest) == rest && a + [] == a
  {
    assert a + (b + rest.0) == a + b + rest.0;
    assert [] + rest.0 == rest.0;
  }

  lemma RotatedAt(group: seq<Provider>, offset: nat, order: seq<Provider>, k: nat, i: nat)
    requires k + |group| <= |order| && order[k..k + |group|] == Rotate(group, offset) && i < |group|
    ensures order[k + i] == group[(i + offset) % |group|]
  {
    assert order[k..k + |group|][i] == order[k + i];
  }

  /** The walk `all` has made these attempts, and has ended, or goes on with provider `k`. */
  ghost predicate Reached(all: (seq<Attempt>, Outcome), attempts: seq<Attempt>, ended: Option<Outcome>,
                          order: seq<Provider>, k: nat, now: nat, deadline: nat, turns: nat -> Turn)
  {
    k <= |order| && all == Prepend(attempts, if ended.Some? then ([], ended.value) else Simulate(order, k, now, deadline, turns))
  }

  lemma ReachedFurther(all: (seq<Attempt>, Outcome), done: seq<Attempt>, order: seq<Provider>, k: nat, start: nat,
                       tried: seq<Attempt>, ended: Option<Outcome>, k': nat, now: nat, deadline: nat, turns: nat -> Turn)
    requires Reached(all, done, None, order, k, start, deadline, turns)
    requires Reached(Simulate(order, k, start, deadline, turns), tried, ended, order, k', now, deadline, turns)
    ensures Reached(all, done + tried, ended, order, k', now, deadline, turns)
  {
    PrependAll(done, tried, if ended.Some? then ([], ended.value) else Simulate(order, k', now, deadline, turns));
  }

  /** Tries the provider that is next; `waiting` are left, this one included. */
  method TryProvider(p: Provider, i: nat, ghost order: seq<Provider>, waiting: nat, start: nat, deadline: nat, turns: nat -> Turn)
    returns (attempts: seq<Attempt>, now: nat, outcome: Option<Outcome>)
    requires i < |order| && p == order[i] && waiting == |order| - i
    ensures Reached(Simulate(order, i, start, deadline, turns), attempts, outcome, order, i + 1, now, deadline, turns)
  {
    var t := turns(i);
    attempts, now := [], start + t.idle;
    assert attempts + [] == attempts;
    if t.left { return attempts, now, Some(Cancelled); }
    if now >= deadline { return attempts, now, Some(AllFailed); }
    var allotted := Allotment(p, deadline - now, waiting);
    attempts := [Attempt(p, now, allotted, Usable(p))];
    assert attempts + [] == attempts;
    if t.abandoned { return attempts, now, Some(Cancelled); }
    if Usable(p) && t.accepted && t.took < allotted { return attempts, now, Some(Won(p)); }
    return attempts, now + t.took, None;
  }

  /** Tries the providers of one group; the rest of the operation goes on where this stops, if it does not end here. */
  method ContactGroup(group: seq<Provider>, offset: nat, ghost order: seq<Provider>, k: nat, waiting: nat,
                      start: nat, deadline: nat, turns: nat -> Turn)
    returns (attempts: seq<Attempt>, now: nat, outcome: Option<Outcome>)
    requires k + |group| <= |order| && waiting == |order| - k
    requires order[k..k + |group|] == Rotate(group, offset)
    ensures Reached(Simulate(order, k, start, deadline, turns), attempts, outcome, order, k + |group|, now, deadline, turns)
  {
    attempts, now := [], start;
    ghost var all := Simulate(order, k, start, deadline, turns);
    PrependAll([], [], all);
    for i := 0 to |group|
      invariant Reached(all, attempts, None, order, k + i, now, deadline, turns)
    {
      var p := group[(i + offset) % |group|];
      RotatedAt(group, offset, order, k, i);
      var tried, later, ended := TryProvider(p, k + i, order, waiting - i, now, deadline, turns);
      ReachedFurther(all, attempts, order, k + i, now, tried, ended, k + i + 1, later, deadline, turns);
      attempts, now := attempts + tried, later;
      if ended.Some? {
        assert Reached(all, attempts, ended, order, k + |group|, now, deadline, turns);
        return attempts, now, ended;
      }
    }
    return attempts, now, None;
  }

  lemma GroupInOrder(c: Cursors, purpose: string, groups: seq<seq<Provider>>, replies: nat -> Reply, g: nat, offset: nat)
    requires NonEmpty(groups) && g < |groups|
    requires offset == Choose(Spin(c, purpose, groups, replies, g).0, Key(groups[g][0].priority, purpose), |groups[g]|, replies(g)).1
    ensures var order, k := Order(c, purpose, groups, replies, |groups|), |Order(c, purpose, groups, replies, g)|;
            && k + |groups[g]| == |Order(c, purpose, groups, replies, g + 1)| <= |order|
            && order[k..k + |groups[g]|] == Rotate(groups[g], offset)
  {
    OrderPrefix(c, purpose, groups, replies, g + 1, |groups|);
    var k, next := |Order(c, purpose, groups, replies, g)|, Order(c, purpose, groups, replies, g + 1);
    assert next[k..] == Rotate(groups[g], offset);
    assert Order(c, purpose, groups, replies, |groups|)[..|next|] == next;
  }

  method Total(groups: seq<seq<Provider>>) returns (n: nat)
    ensures n == |Join(groups)|
  {
    n := 0;
    for g := 0 to |groups|
      invariant n == |Join(groups[..g])|
    {
      assert groups[..g + 1][..g] == groups[..g];
      n := n + |groups[g]|;
    }
    assert groups[..|groups|] == groups;
  }

  ghost predicate Spun(before: Cursors, after: Cursors, purpose: string, groups: seq<seq<Provider>>, replies: nat -> Reply)
    requires NonEmpty(groups)
  {
    exists g: nat | g <= |groups| :: after == Spin(before, purpose, groups, replies, g).0
  }

  lemma NowSpun(before: Cursors, purpose: string, groups: seq<seq<Provider>>, replies: nat -> Reply, g: nat)
    requires NonEmpty(groups) && g <= |groups|
    ensures Spun(before, Spin(before, purpose, groups, replies, g).0, purpose, groups, replies)
  {
  }

  /** Rotates group `g` and tries it. */
  method StartGroup(groups: seq<seq<Provider>>, g: nat, purpose: string, rotation: Rotation, replies: nat -> Reply,
                    ghost cursors: Cursors, ghost order: seq<Provider>, k: nat, waiting: nat,
                    start: nat, deadline: nat, turns: nat -> Turn)
    returns (attempts: seq<Attempt>, now: nat, outcome: Option<Outcome>)
    requires NonEmpty(groups) && g < |groups| && rotation.State() == Spin(cursors, purpose, groups, replies, g).0
    requires order == Order(cursors, purpose, groups, replies, |groups|)
    requires k == |Order(cursors, purpose, groups, replies, g)| && waiting == |order| - k
    modifies rotation
    ensures rotation.State() == Spin(cursors, purpose, groups, replies, g + 1).0
    ensures k + |groups[g]| == |Order(cursors, purpose, groups, replies, g + 1)| <= |order|
    ensures Reached(Simulate(order, k, start, deadline, turns), attempts, outcome, order, k + |groups[g]|, now, deadline, turns)
  {
    var group := groups[g];
    var offset := rotation.RotationOffset(Key(group[0].priority, purpose), |group|, replies(g));
    GroupInOrder(cursors, purpose, groups, replies, g, offset);
    attempts, now, outcome := ContactGroup(group, offset, order, k, waiting, start, deadline, turns);
  }

  lemma WholeLength(c: Cursors, purpose: string, groups: seq<seq<Provider>>, replies: nat -> Reply)
    requires NonEmpty(groups)
    ensures |Order(c, purpose, groups, replies, |groups|)| == |Join(groups)|
  {
    OrderLength(c, purpose, groups, replies, |groups|);
    assert groups[..|groups|] == groups;
  }

  /** Nobody is left to try. */
  lemma WalkEnds(order: seq<Provider>, now: nat, deadline: nat, turns: nat -> Turn, done: seq<Attempt>)
    ensures Prepend(done, Simulate(order, |order|, now, deadline, turns)) == (done, AllFailed)
  {
    assert done + [] == done;
  }

  /** Walks the groups; the result is that of the simple form over the rotated groups, one after the other. */
  method Contact(groups: seq<seq<Provider>>, purpose: string, rotation: Rotation, replies: nat -> Reply,
                 start: nat, deadline: nat, turns: nat -> Turn)
    returns (attempts: seq<Attempt>, outcome: Outcome)
    requires NonEmpty(groups)
    modifies rotation
    ensures (attempts, outcome)
         == Simulate(Order(old(rotation.State()), purpose, groups, replies, |groups|), 0, start, deadline, turns)
    ensures Spun(old(rotation.State()), rotation.State(), purpose, groups, replies)
  {
    ghost var cursors := rotation.State();
    ghost var order := Order(cursors, purpose, groups, replies, |groups|);
    var remaining := Total(groups);
    WholeLength(cursors, purpose, groups, replies);
    attempts := [];
    var now, k, g, result := start, 0, 0, None;
    ghost var all := Simulate(order, 0, start, deadline, turns);
    PrependAll([], [], all);
    while g < |groups| && result.None?
      invariant 0 <= g <= |groups| && k == |Order(cursors, purpose, groups, replies, g)| <= |order|
      invariant rotation.State() == Spin(cursors, purpose, groups, replies, g).0
      invariant remaining == |order| - k
      invariant Reached(all, attempts, result, order, k, now, deadline, turns)
      decreases |groups| - g
    {
      var tried, later, ended :=
        StartGroup(groups, g, purpose, rotation, replies, cursors, order, k, remaining, now, deadline, turns);
      ReachedFurther(all, attempts, order, k, now, tried, ended, k + |groups[g]|, later, deadline, turns);
      k, remaining := k + |groups[g]|, remaining - |groups[g]|;
      attempts, now, result, g := attempts + tried, later, ended, g + 1;
    }
    NowSpun(cursors, purpose, groups, replies, g);
    if result.Some? {
      PrependAll(attempts, [], ([], result.value));
      return attempts, result.value;
    }
    WalkEnds(order, now, deadline, turns, attempts);
    return attempts, AllFailed;
  }

  /** Reading the stored providers may fail, or end because the caller is gone. */
  datatype Loading = Loaded(items: seq<Provider>) | LoadFailed | LoadCancelled

  /** Everyone an operation may contact, in order of priority. */
  function Chain(loaded: Loading, env: Option<Provider>, purpose: string): seq<Provider>
  {
    Eligible(Sort(Before, Candidates(if loaded.Loaded? then loaded.items else [], env)), purpose)
  }

  /** Everyone an operation may contact, in the order in which it would contact them. */
  function Plan(chain: seq<Provider>, cursors: Cursors, purpose: string, replies: nat -> Reply): seq<Provider>
  {
    var groups := GroupsOf(chain);
    Order(cursors, purpose, groups, replies, |groups|)
  }

  lemma GroupsOfNobody(ps: seq<Provider>)
    ensures GroupsOf(ps) == [] <==> ps == []
  {
  }

  method Execute(loaded: Loading, env: Option<Provider>, purpose: string, rotation: Rotation, replies: nat -> Reply,
                 gone: bool, start: nat, turns: nat -> Turn)
    returns (attempts: seq<Attempt>, outcome: Outcome)
    modifies rotation
    ensures gone || loaded.LoadCancelled? ==> (attempts, outcome) == ([], Cancelled)
    ensures !gone && !loaded.LoadCancelled? ==>
              (attempts, outcome) ==
              if Chain(loaded, env, purpose) == [] then ([], Unavailable)
              else Simulate(Plan(Chain(loaded, env, purpose), old(rotation.State()), purpose, replies),
                            0, start, start + CHAIN_TIMEOUT, turns)
    ensures Spun(old(rotation.State()), rotation.State(), purpose, GroupsOf(Chain(loaded, env, purpose)), replies)
  {
    NowSpun(rotation.State(), purpose, GroupsOf(Chain(loaded, env, purpose)), replies, 0);
    if gone { return [], Cancelled; }
    if loaded.LoadCancelled? { return [], Cancelled; }
    var providers := Providers(if loaded.Loaded? then loaded.items else [], env);
    var groups := Grouped(providers, purpose);
    ghost var chain := Chain(loaded, env, purpose);
    assert groups == GroupsOf(chain);
    GroupsOfNobody(chain);
    if |groups| == 0 { return [], Unavailable; }
    attempts, outcome := Contact(groups, purpose, rotation, replies, start, start + CHAIN_TIMEOUT, turns);
  }
}
