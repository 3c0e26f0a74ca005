/** Token chains over any run, with the two later statements of a failed rotation scheduled at will. */
module RefreshSessionTheorems {
  import opened Common
  import opened RefreshSessions

  datatype Event =
    | Login(user: Uuid, token: Token, expires: nat)
    | Rotate(token: Token, replacement: Token, expires: nat, now: nat)
    | Inspect(token: Token, now: nat)
    | Respond(response: Response)
    | Logout(token: Token)

  /** The table, the tokens whose rotation failed, and the responses that were decided on but may still be on their way. */
  datatype World = World(table: Table, failed: set<(Token, nat)>, responses: set<Response>)

  const START := World([], {}, {})

  function Apply(w: World, e: Event): World
  {
    match e
    case Login(user, token, expires) => w.(table := CreateTx(w.table, user, token, expires).0)
    case Rotate(token, replacement, expires, now) =>
      var (t, r) := RotateTx(w.table, token, replacement, expires, now);
      if r.None? then w.(failed := w.failed + {(token, now)}) else w.(table := t)
    case Inspect(token, now) =>
      if (token, now) in w.failed then w.(responses := w.responses + {InspectTx(w.table, token, now)}) else w
    case Respond(response) => if response in w.responses then w.(table := RespondTx(w.table, response)) else w
    case Logout(token) => w.(table := RevokeTx(w.table, token).0)
  }

  function Run(w: World, es: seq<Event>): World
  {
    if es == [] then w else Apply(Run(w, es[..|es| - 1]), es[|es| - 1])
  }

  // ---- The shape of the table. ----

  ghost predicate Chained(t: Table)
  {
    && (forall i, j | 0 <= i < j < |t| :: t[i].token != t[j].token)
    && (forall i | 0 <= i < |t| && t[i].replacedBy.Some? ::
          && i < t[i].replacedBy.value < |t| && t[i].revoked && t[t[i].replacedBy.value].user == t[i].user)
    && (forall i, j | 0 <= i < j < |t| && t[i].replacedBy.Some? :: t[i].replacedBy != t[j].replacedBy)
  }

  /** Rows stay; a revoked one stays revoked, and a link that is set stays as it is. */
  ghost predicate Later(t: Table, t': Table)
  {
    && |t| <= |t'|
    && forall i | 0 <= i < |t| ::
         && t'[i] == t[i].(revoked := t'[i].revoked, replacedBy := t'[i].replacedBy)
         && (t[i].revoked ==> t'[i].revoked && t'[i].replacedBy == t[i].replacedBy)
  }

  lemma FindIsUnique(t: Table, i: nat)
    requires Chained(t) && i < |t|
    ensures Find(t, t[i].token) == i
  {
    var k := Find(t, t[i].token);
    assert Known(t, t[i].token);
  }

  lemma CreateKeeps(t: Table, user: Uuid, token: Token, expires: nat)
    requires Chained(t)
    ensures Chained(CreateTx(t, user, token, expires).0) && Later(t, CreateTx(t, user, token, expires).0)
  {
    var t' := CreateTx(t, user, token, expires).0;
    if t' != t {
      forall i, j | 0 <= i < j < |t'| ensures t'[i].token != t'[j].token {
        if j == |t| { assert t[i].token != token; }
      }
    }
  }

  lemma RotateKeeps(t: Table, token: Token, replacement: Token, expires: nat, now: nat)
    requires Chained(t)
    ensures Chained(RotateTx(t, token, replacement, expires, now).0) && Later(t, RotateTx(t, token, replacement, expires, now).0)
  {
    var (t', r) := RotateTx(t, token, replacement, expires, now);
    var i := Find(t, token);
    if t' != t {
      forall a, b | 0 <= a < b < |t'| ensures t'[a].token != t'[b].token {
        assert t'[a].token == t[a].token;
        if b == |t| { assert t[a].token != replacement; } else { assert t'[b].token == t[b].token; }
      }
    }
  }

  /** Revoking more rows keeps everything. */
  lemma RevokingKeeps(t: Table, t': Table)
    requires Chained(t) && |t'| == |t|
    requires forall i | 0 <= i < |t| :: t'[i] == t[i].(revoked := t'[i].revoked) && (t[i].revoked ==> t'[i].revoked)
    ensures Chained(t') && Later(t, t')
  {
  }

  lemma EventKeeps(w: World, e: Event)
    requires Chained(w.table)
    ensures Chained(Apply(w, e).table) && Later(w.table, Apply(w, e).table)
  {
    match e {
      case Login(user, token, expires) => CreateKeeps(w.table, user, token, expires);
      case Rotate(token, replacement, expires, now) => RotateKeeps(w.table, token, replacement, expires, now);
      case Inspect(_, _) =>
      case Respond(response) => RevokingKeeps(w.table, RespondTx(w.table, response));
      case Logout(token) => RevokingKeeps(w.table, RevokeTx(w.table, token).0);
    }
  }

  lemma {:induction false} RunKeeps(w: World, es: seq<Event>)
    requires Chained(w.table)
    ensures Chained(Run(w, es).table) && Later(w.table, Run(w, es).table)
  {
    if es != [] {
      RunKeeps(w, es[..|es| - 1]);
      EventKeeps(Run(w, es[..|es| - 1]), es[|es| - 1]);
    }
  }

  // ---- Logins and their paths. ----

  /** The row that was replaced by row `i`. */
  ghost predicate Before(t: Table, p: nat, i: nat) { p < i < |t| && t[p].replacedBy == Some(i) }

  /** The login a row goes back to. */
  ghost function LoginOf(t: Table, i: nat): (r: nat)
    ensures r <= i
  {
    if p: nat :| Before(t, p, i) then LoginOf(t, p) else i
  }

  lemma LoginStep(t: Table, p: nat, i: nat)
    requires Chained(t) && Before(t, p, i)
    ensures LoginOf(t, i) == LoginOf(t, p)
  {
    var q: nat :| Before(t, q, i) && LoginOf(t, i) == LoginOf(t, q);
    assert q == p;
  }

  /** Row `j` is row `i` or comes after it on the same path. */
  ghost predicate Leads(t: Table, i: nat, j: nat)
    decreases j - i
  {
    i == j || (i < j && i < |t| && t[i].replacedBy.Some? && i < t[i].replacedBy.value && Leads(t, t[i].replacedBy.value, j))
  }

  lemma {:induction false} LeadsOneMore(t: Table, i: nat, p: nat, j: nat)
    requires Chained(t) && Leads(t, i, p) && Before(t, p, j)
    ensures Leads(t, i, j)
    decreases p - i
  {
    if i < p { LeadsOneMore(t, t[i].replacedBy.value, p, j); }
  }

  lemma {:induction false} LeadsForward(t: Table, i: nat, j: nat)
    requires Leads(t, i, j)
    ensures i <= j
    decreases j - i
  {
  }

  /** The rows of one login form one path: of any two, the earlier leads to the later. */
  lemma {:induction false} LoginIsPath(t: Table, i: nat, j: nat)
    requires Chained(t) && i <= j < |t| && LoginOf(t, i) == LoginOf(t, j)
    ensures Leads(t, i, j) && t[i].user == t[j].user
    decreases j
  {
    if i < j {
      if p: nat :| Before(t, p, j) {
        LoginStep(t, p, j);
        if i <= p {
          LoginIsPath(t, i, p);
          LeadsOneMore(t, i, p, j);
        } else {
          LoginIsPath(t, p, i);
          LeadsForward(t, j, i);
        }
      }
    }
  }

  /** Of one login at most one session is not revoked. */
  lemma OneActivePerLogin(t: Table, i: nat, j: nat)
    requires Chained(t) && i < j < |t| && LoginOf(t, i) == LoginOf(t, j)
    ensures t[i].revoked
  {
    LoginIsPath(t, i, j);
  }

  /** After any run: the sessions of a login form a path within one user, and only its end may be active. */
  lemma LoginsArePaths(es: seq<Event>, i: nat, j: nat)
    requires i < j < |Run(START, es).table| && LoginOf(Run(START, es).table, i) == LoginOf(Run(START, es).table, j)
    ensures var t := Run(START, es).table; Leads(t, i, j) && t[i].user == t[j].user && t[i].revoked
  {
    RunKeeps(START, es);
    LoginIsPath(Run(START, es).table, i, j);
    OneActivePerLogin(Run(START, es).table, i, j);
  }

  // ---- Rotation. ----

  predicate Succeeds(w: World, e: Event, token: Token)
  {
    e.Rotate? && e.token == token &&
    var r := RotateTx(w.table, token, e.replacement, e.expires, e.now).1; r.Some? && r.value.Rotated?
  }

  function Successes(w: World, es: seq<Event>, token: Token): nat
  {
    if es == [] then 0
    else Successes(w, es[..|es| - 1], token) + if Succeeds(Run(w, es[..|es| - 1]), es[|es| - 1], token) then 1 else 0
  }

  /** A token rotates at most once over any run, and then its row is revoked for good. */
  lemma {:induction false} RotatesOnce(es: seq<Event>, token: Token)
    ensures Successes(START, es, token) <= 1
    ensures Successes(START, es, token) == 1 ==>
              var t := Run(START, es).table; var i := Find(t, token); i < |t| && t[i].revoked
  {
    if es != [] {
      var front, e := es[..|es| - 1], es[|es| - 1];
      RotatesOnce(front, token);
      RunKeeps(START, front);
      EventKeeps(Run(START, front), e);
      var t, t' := Run(START, front).table, Run(START, es).table;
      var i := Find(t, token);
      if i < |t| {
        assert t'[i].token == token;
        FindIsUnique(t', i);
      }
    }
  }

  // ---- Reuse. ----

  ghost predicate NoneActive(t: Table, user: Uuid) { forall i | 0 <= i < |t| :: t[i].user == user ==> t[i].revoked }

  /** Whoever comes with a revoked token is refused, and looking at it, however late, decides to revoke its user. */
  lemma ReuseIsNoticed(es: seq<Event>, later: seq<Event>, i: nat, replacement: Token, expires: nat, now: nat)
    requires i < |Run(START, es).table| && Run(START, es).table[i].revoked
    ensures var s := Run(START, es).table[i];
            && RotateTx(Run(START, es).table, s.token, replacement, expires, now) == (Run(START, es).table, None)
            && InspectTx(Run(Run(START, es), later).table, s.token, now) == RevokeUser(s.user)
  {
    RunKeeps(START, es);
    FindIsUnique(Run(START, es).table, i);
    RunKeeps(Run(START, es), later);
    FindIsUnique(Run(Run(START, es), later).table, i);
  }

  /** Without a login nothing makes a session of the user active. */
  lemma StaysInactive(w: World, e: Event, user: Uuid)
    requires Chained(w.table) && NoneActive(w.table, user) && !(e.Login? && e.user == user)
    ensures NoneActive(Apply(w, e).table, user)
  {
    EventKeeps(w, e);
  }

  /** The response to reuse leaves the user with no active session, until they log in again. */
  lemma {:induction false} ReuseRevokesAll(w: World, user: Uuid, later: seq<Event>)
    requires Chained(w.table) && RevokeUser(user) in w.responses
    requires forall e | e in later :: !(e.Login? && e.user == user)
    ensures NoneActive(Run(Apply(w, Respond(RevokeUser(user))), later).table, user)
  {
    var w1 := Apply(w, Respond(RevokeUser(user)));
    EventKeeps(w, Respond(RevokeUser(user)));
    if later != [] {
      var front, e := later[..|later| - 1], later[|later| - 1];
      ReuseRevokesAll(w, user, front);
      RunKeeps(w1, front);
      StaysInactive(Run(w1, front), e, user);
    }
  }

  /** A token rotates exactly when it is not revoked and has not expired; its session then gives way to the new one. */
  lemma LiveTokenRotates(es: seq<Event>, i: nat, replacement: Token, expires: nat, now: nat)
    requires i < |Run(START, es).table| && !Known(Run(START, es).table, replacement)
    ensures var t := Run(START, es).table; var s := t[i];
            var (t', r) := RotateTx(t, s.token, replacement, expires, now);
            && (r == Some(Rotated(s.user)) <==> !s.revoked && now < s.expires) && (r.None? <==> s.revoked || s.expires <= now)
            && (r.Some? ==>
                  && |t'| == |t| + 1 && t'[i] == Session(s.user, s.token, s.expires, true, Some(|t|))
                  && t'[|t|] == Session(s.user, replacement, expires, false, None)
                  && forall k | 0 <= k < |t| && k != i :: t'[k] == t[k])
  {
    RunKeeps(START, es);
    FindIsUnique(Run(START, es).table, i);
  }

  /** A token that has only expired costs its own session and nobody else's. */
  lemma ExpiredTokenEnds(es: seq<Event>, i: nat, now: nat)
    requires i < |Run(START, es).table| && !Run(START, es).table[i].revoked && Run(START, es).table[i].expires <= now
    ensures var t := Run(START, es).table;
            var t' := RespondTx(t, InspectTx(t, t[i].token, now));
            |t'| == |t| && t'[i] == t[i].(revoked := true) && forall k | 0 <= k < |t| && k != i :: t'[k] == t[k]
  {
    RunKeeps(START, es);
    FindIsUnique(Run(START, es).table, i);
  }

  /** After a logout the token never rotates again. */
  lemma LogoutEnds(es: seq<Event>, later: seq<Event>, i: nat, replacement: Token, expires: nat, now: nat)
    requires i < |Run(START, es).table|
    ensures var t := Run(START, es).table;
            var w := Run(Apply(Run(START, es), Logout(t[i].token)), later);
            RotateTx(w.table, t[i].token, replacement, expires, now) == (w.table, None)
  {
    var w0 := Run(START, es);
    RunKeeps(START, es);
    FindIsUnique(w0.table, i);
    EventKeeps(w0, Logout(w0.table[i].token));
    var w1 := Apply(w0, Logout(w0.table[i].token));
    RunKeeps(w1, later);
    FindIsUnique(Run(w1, later).table, i);
  }
}
