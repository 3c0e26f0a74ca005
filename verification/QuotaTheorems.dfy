/** Quota and practice attempts over any run. */
module QuotaTheorems {
  import opened Common
  import opened Quota

  datatype Event =
    | Consume(user: Uuid, standing: Standing, kind: Kind, id: Uuid, skills: seq<Skill>)
    | Claim(user: Uuid, staff: bool, session: Uuid)
    | CreatePractice(user: Uuid, standing: Standing, skill: Skill, material: Uuid, id: Uuid, existing: Option<Uuid>)
    | CreateMockAttempt(user: Uuid, skill: Skill, material: Uuid, id: Uuid)
    | Close(id: Uuid)

  function Apply(d: Db, e: Event, limits: Skill -> nat, enabled: bool): Db
  {
    match e
    case Consume(user, standing, kind, id, skills) => ConsumeTx(d, limits, enabled, user, standing, kind, id, skills).0
    case Claim(user, staff, session) => ClaimTx(d, enabled, user, staff, session).0
    case CreatePractice(user, standing, skill, material, id, existing) =>
      CreatePracticeTx(d, limits, enabled, user, standing, skill, material, id, existing).0
    case CreateMockAttempt(user, skill, material, id) =>
      if id in d.attempts then d else d.(attempts := d.attempts[id := Attempt(user, skill, material, true, true)])
    case Close(id) =>
      if id in d.attempts then d.(attempts := d.attempts[id := d.attempts[id].(isOpen := false)]) else d
  }

  function Run(users: set<Uuid>, es: seq<Event>, limits: Skill -> nat, enabled: bool): Db
  {
    if es == [] then Db(users, map[], map[]) else Apply(Run(users, es[..|es| - 1], limits, enabled), es[|es| - 1], limits, enabled)
  }

  /** Each practice creation was told truly whether an open attempt exists. */
  ghost predicate Truthful(users: set<Uuid>, es: seq<Event>, limits: Skill -> nat, enabled: bool)
  {
    forall i | 0 <= i < |es| && es[i].CreatePractice? ::
      Finds(Run(users, es[..i], limits, enabled), es[i].user, es[i].skill, es[i].material, es[i].existing)
  }

  // ---- Recording. ----

  lemma {:induction false} RecordAdds(usage: map<Source, Uuid>, user: Uuid, kind: Kind, id: Uuid, skills: seq<Skill>)
    ensures var r := Record(usage, user, kind, id, skills);
            && (forall s | s in usage :: s in r && r[s] == usage[s])
            && (forall s | s in r && s !in usage :: s.kind == kind && s.id == id && s.skill in skills && r[s] == user)
            && (forall k | k in skills :: Source(kind, id, k) in r)
  {
    if skills != [] { RecordAdds(usage, user, kind, id, skills[..|skills| - 1]); }
  }

  lemma OneMore(a: set<Source>, b: set<Source>, s: Source)
    requires forall x | x in a :: x in b || x == s
    ensures |a| <= |b| + 1
  {
    assert a <= b + {s};
    var rest := (b + {s}) - a;
    assert b + {s} == a + rest;
    assert |b + {s}| == |a| + |rest|;
  }

  /** A source costs at most one unit of a skill, and only of a skill it is for. */
  lemma RecordCosts(usage: map<Source, Uuid>, user: Uuid, kind: Kind, id: Uuid, skills: seq<Skill>, who: Uuid, skill: Skill)
    ensures var r := Record(usage, user, kind, id, skills);
            && |Charged(r, who, skill)| <= |Charged(usage, who, skill)| + 1
            && (who != user || skill !in skills ==> Charged(r, who, skill) == Charged(usage, who, skill))
  {
    RecordAdds(usage, user, kind, id, skills);
    var r := Record(usage, user, kind, id, skills);
    OneMore(Charged(r, who, skill), Charged(usage, who, skill), Source(kind, id, skill));
    if who != user || skill !in skills {
      assert Charged(r, who, skill) == Charged(usage, who, skill);
    }
  }

  lemma {:induction false} PendingIsNew(usage: map<Source, Uuid>, kind: Kind, id: Uuid, skills: seq<Skill>)
    ensures forall k :: k in Pending(usage, kind, id, skills) <==> k in skills && Source(kind, id, k) !in usage
  {
    if skills != [] {
      PendingIsNew(usage, kind, id, skills[..|skills| - 1]);
      assert skills == skills[..|skills| - 1] + [skills[|skills| - 1]];
    }
  }

  lemma {:induction false} NothingPending(usage: map<Source, Uuid>, kind: Kind, id: Uuid, skills: seq<Skill>)
    ensures Pending(usage, kind, id, skills) == [] <==> forall k | k in skills :: Source(kind, id, k) in usage
  {
    if skills != [] {
      NothingPending(usage, kind, id, skills[..|skills| - 1]);
      assert skills == skills[..|skills| - 1] + [skills[|skills| - 1]];
    }
  }

  lemma {:induction false} NotExhausted(usage: map<Source, Uuid>, limits: Skill -> nat, user: Uuid, skills: seq<Skill>)
    ensures Exhausted(usage, limits, user, skills).None? <==>
            forall k | k in skills :: |Charged(usage, user, k)| < limits(k)
  {
    if skills != [] {
      NotExhausted(usage, limits, user, skills[1..]);
      assert skills == [skills[0]] + skills[1..];
    }
  }

  // ---- The bound. ----

  /** A claim that is recorded: quotas are enabled, the account exists and its owner is not staff. */
  predicate Records(e: Event, users: set<Uuid>, enabled: bool)
  {
    enabled && e.Claim? && e.user in users && !e.staff
  }

  /** The guest mocks a user has claimed; a session that is claimed again is the same mock. */
  function ClaimedMocks(users: set<Uuid>, es: seq<Event>, enabled: bool, user: Uuid): set<Uuid>
  {
    set i | 0 <= i < |es| && Records(es[i], users, enabled) && es[i].user == user :: es[i].session
  }

  lemma ClaimedMocksGrow(users: set<Uuid>, es: seq<Event>, enabled: bool, user: Uuid)
    requires es != []
    ensures var e := es[|es| - 1];
            ClaimedMocks(users, es, enabled, user)
            == ClaimedMocks(users, es[..|es| - 1], enabled, user)
               + (if Records(e, users, enabled) && e.user == user then {e.session} else {})
  {
    var front, e := es[..|es| - 1], es[|es| - 1];
    assert forall i | 0 <= i < |front| :: front[i] == es[i];
    forall x | x in ClaimedMocks(users, front, enabled, user) ensures x in ClaimedMocks(users, es, enabled, user) {
      var i :| 0 <= i < |front| && Records(front[i], users, enabled) && front[i].user == user && front[i].session == x;
      assert es[i] == front[i];
    }
  }

  /** The rows of a mock somebody has claimed are all charged, whoever pays for them. */
  lemma {:induction false} ClaimedIsCharged(users: set<Uuid>, es: seq<Event>, limits: Skill -> nat, enabled: bool, user: Uuid, session: Uuid, skill: Skill)
    requires session in ClaimedMocks(users, es, enabled, user)
    ensures Source(SessionSource, session, skill) in Run(users, es, limits, enabled).usage
  {
    var front, e := es[..|es| - 1], es[|es| - 1];
    var d := Run(users, front, limits, enabled);
    ClaimedMocksGrow(users, es, enabled, user);
    if session in ClaimedMocks(users, front, enabled, user) {
      ClaimedIsCharged(users, front, limits, enabled, user, session, skill);
      UsageStep(d, e, limits, enabled);
    } else {
      UsersStay(users, front, limits, enabled);
      RecordAdds(d.usage, user, SessionSource, session, SKILLS);
      assert skill in SKILLS;
    }
  }

  /** A claim costs a unit only when it is recorded and the mock's row is not there yet. */
  lemma ClaimCosts(d: Db, enabled: bool, user: Uuid, staff: bool, session: Uuid, who: Uuid, skill: Skill)
    ensures var used, used' := |Charged(d.usage, who, skill)|,
                               |Charged(ClaimTx(d, enabled, user, staff, session).0.usage, who, skill)|;
            used' <= used + (if Records(Claim(user, staff, session), d.users, enabled) && user == who
                                && Source(SessionSource, session, skill) !in d.usage then 1 else 0)
  {
    RecordCosts(d.usage, user, SessionSource, session, SKILLS, who, skill);
    RecordAdds(d.usage, user, SessionSource, session, SKILLS);
    if Source(SessionSource, session, skill) in d.usage {
      assert Charged(Record(d.usage, user, SessionSource, session, SKILLS), who, skill) == Charged(d.usage, who, skill);
    }
  }

  lemma ConsumeStays(d: Db, limits: Skill -> nat, enabled: bool, user: Uuid, a: Standing, kind: Kind, id: Uuid, skills: seq<Skill>,
                     who: Uuid, skill: Skill)
    ensures var used, used' := |Charged(d.usage, who, skill)|,
                               |Charged(ConsumeTx(d, limits, enabled, user, a, kind, id, skills).0.usage, who, skill)|;
            used' <= used || used' <= limits(skill)
  {
    var pending := Pending(d.usage, kind, id, skills);
    NotExhausted(d.usage, limits, user, pending);
    RecordCosts(d.usage, user, kind, id, pending, who, skill);
  }

  lemma OneElementMore(a: set<Uuid>, x: Uuid)
    ensures |a + {x}| == |a| + if x in a then 0 else 1
  {
    if x in a { assert a + {x} == a; }
  }

  /** A claim costs at most as many units as it adds claimed mocks. */
  lemma ClaimStays(users: set<Uuid>, es: seq<Event>, limits: Skill -> nat, enabled: bool, user: Uuid, skill: Skill)
    requires es != [] && es[|es| - 1].Claim?
    ensures var front := es[..|es| - 1];
            |Charged(Run(users, es, limits, enabled).usage, user, skill)| - |Charged(Run(users, front, limits, enabled).usage, user, skill)|
            <= |ClaimedMocks(users, es, enabled, user)| - |ClaimedMocks(users, front, enabled, user)|
  {
    var front, e := es[..|es| - 1], es[|es| - 1];
    UsersStay(users, front, limits, enabled);
    ClaimedMocksGrow(users, es, enabled, user);
    ClaimCosts(Run(users, front, limits, enabled), enabled, e.user, e.staff, e.session, user, skill);
    OneElementMore(ClaimedMocks(users, front, enabled, user), e.session);
    if e.session in ClaimedMocks(users, front, enabled, user) {
      ClaimedIsCharged(users, front, limits, enabled, user, e.session, skill);
    }
  }

  /**
   Usage never exceeds the limit by more than the number of different guest mocks the user has claimed, whatever the
   interleaving.
   */
  lemma {:induction false} UsageBound(users: set<Uuid>, es: seq<Event>, limits: Skill -> nat, enabled: bool, user: Uuid, skill: Skill)
    ensures |Charged(Run(users, es, limits, enabled).usage, user, skill)|
            <= limits(skill) + |ClaimedMocks(users, es, enabled, user)|
  {
    if es != [] {
      var front, e := es[..|es| - 1], es[|es| - 1];
      UsageBound(users, front, limits, enabled, user, skill);
      ClaimedMocksGrow(users, es, enabled, user);
      var d := Run(users, front, limits, enabled);
      match e {
        case Consume(u, a, kind, id, skills) => ConsumeStays(d, limits, enabled, u, a, kind, id, skills, user, skill);
        case Claim(_, _, _) => ClaimStays(users, es, limits, enabled, user, skill);
        case CreatePractice(u, a, k, material, id, existing) =>
          ConsumeStays(d, limits, enabled, u, a, AttemptSource, id, [k], user, skill);
        case CreateMockAttempt(_, _, _, _) =>
        case Close(_) =>
      }
    } else {
      assert Charged(map[], user, skill) == {};
    }
  }

  /** Somebody with no privilege is refused exactly when a skill that is not charged yet has nothing left. */
  lemma RefusedWhenExhausted(d: Db, limits: Skill -> nat, user: Uuid, a: Standing, kind: Kind, id: Uuid, skills: seq<Skill>)
    requires user in d.users && !a.staff && !a.guest && !a.active
    ensures ConsumeTx(d, limits, true, user, a, kind, id, skills).1.PaymentRequired? <==>
            exists k :: k in skills && Source(kind, id, k) !in d.usage && |Charged(d.usage, user, k)| >= limits(k)
    ensures ConsumeTx(d, limits, true, user, a, kind, id, skills).1.PaymentRequired? ==>
            ConsumeTx(d, limits, true, user, a, kind, id, skills).0 == d
  {
    PendingIsNew(d.usage, kind, id, skills);
    NotExhausted(d.usage, limits, user, Pending(d.usage, kind, id, skills));
  }

  // ---- Replays. ----

  ghost predicate Grows(u: map<Source, Uuid>, u': map<Source, Uuid>)
  {
    forall s | s in u :: s in u' && u'[s] == u[s]
  }

  lemma ConsumeGrows(d: Db, limits: Skill -> nat, enabled: bool, user: Uuid, a: Standing, kind: Kind, id: Uuid, skills: seq<Skill>)
    ensures var d' := ConsumeTx(d, limits, enabled, user, a, kind, id, skills).0; Grows(d.usage, d'.usage) && d'.users == d.users
  {
    RecordAdds(d.usage, user, kind, id, Pending(d.usage, kind, id, skills));
  }

  lemma UsageStep(d: Db, e: Event, limits: Skill -> nat, enabled: bool)
    ensures Grows(d.usage, Apply(d, e, limits, enabled).usage) && Apply(d, e, limits, enabled).users == d.users
  {
    match e {
      case Consume(u, a, kind, id, skills) => ConsumeGrows(d, limits, enabled, u, a, kind, id, skills);
      case Claim(u, staff, session) => RecordAdds(d.usage, u, SessionSource, session, SKILLS);
      case CreatePractice(u, a, k, material, id, existing) => ConsumeGrows(d, limits, enabled, u, a, AttemptSource, id, [k]);
      case CreateMockAttempt(_, _, _, _) =>
      case Close(_) =>
    }
  }

  /** Rows stay, with their owner. */
  lemma {:induction false} UsageGrows(users: set<Uuid>, before: seq<Event>, later: seq<Event>, limits: Skill -> nat, enabled: bool)
    ensures Grows(Run(users, before, limits, enabled).usage, Run(users, before + later, limits, enabled).usage)
    ensures Run(users, before + later, limits, enabled).users == users
  {
    if later == [] {
      assert before + later == before;
      UsersStay(users, before, limits, enabled);
    } else {
      var front := later[..|later| - 1];
      UsageGrows(users, before, front, limits, enabled);
      assert (before + later)[..|before + later| - 1] == before + front;
      UsageStep(Run(users, before + front, limits, enabled), later[|later| - 1], limits, enabled);
    }
  }

  lemma {:induction false} UsersStay(users: set<Uuid>, es: seq<Event>, limits: Skill -> nat, enabled: bool)
    ensures Run(users, es, limits, enabled).users == users
  {
    if es != [] { UsersStay(users, es[..|es| - 1], limits, enabled); }
  }

  /**
   A source that was paid for is never paid for again: whatever happens in between, asking for it later succeeds and
   charges nobody, even when nothing is left.
   */
  lemma ReplayIsFree(users: set<Uuid>, before: seq<Event>, e: Event, later: seq<Event>, limits: Skill -> nat,
                     who: Uuid, a: Standing)
    requires e.Consume? && e.user in users && who in users && !e.standing.staff && !e.standing.guest && !e.standing.active
    requires ConsumeTx(Run(users, before, limits, true), limits, true, e.user, e.standing, e.kind, e.id, e.skills).1.Fine?
    ensures var d := Run(users, before + [e] + later, limits, true);
            ConsumeTx(d, limits, true, who, a, e.kind, e.id, e.skills) == (d, Fine)
  {
    var d0 := Run(users, before, limits, true);
    UsersStay(users, before, limits, true);
    assert (before + [e])[..|before + [e]| - 1] == before;
    var pending := Pending(d0.usage, e.kind, e.id, e.skills);
    PendingIsNew(d0.usage, e.kind, e.id, e.skills);
    RecordAdds(d0.usage, e.user, e.kind, e.id, pending);
    UsageGrows(users, before + [e], later, limits, true);
    var d := Run(users, before + [e] + later, limits, true);
    var d1 := Run(users, before + [e], limits, true);
    forall k | k in e.skills ensures Source(e.kind, e.id, k) in d.usage {
      assert Source(e.kind, e.id, k) in d1.usage;
    }
    NothingPending(d.usage, e.kind, e.id, e.skills);
  }

  // ---- Practice attempts. ----

  ghost predicate OnePractice(d: Db)
  {
    forall i, j | i in d.attempts && j in d.attempts && d.attempts[i].isOpen && !d.attempts[i].inSession &&
                  OpenPractice(d.attempts[j], d.attempts[i].user, d.attempts[i].skill, d.attempts[i].material) :: i == j
  }

  /** However many clicks there are, a user has at most one open practice attempt per material. */
  lemma {:induction false} AtMostOneOpenPractice(users: set<Uuid>, es: seq<Event>, limits: Skill -> nat, enabled: bool)
    requires Truthful(users, es, limits, enabled)
    ensures OnePractice(Run(users, es, limits, enabled))
  {
    if es != [] {
      var front, e := es[..|es| - 1], es[|es| - 1];
      assert forall i | 0 <= i < |front| :: front[..i] == es[..i] && front[i] == es[i];
      AtMostOneOpenPractice(users, front, limits, enabled);
      if e.CreatePractice? {
        assert Finds(Run(users, es[..|es| - 1], limits, enabled), e.user, e.skill, e.material, e.existing);
      }
    }
  }

  /** No quota applies to the account just now. */
  predicate Unmetered(a: Standing, enabled: bool) { !enabled || a.staff || a.guest || a.active }

  /** A practice attempt is created exactly when the user has none open for the material and can pay or need not. */
  lemma PracticeIsCreated(d: Db, limits: Skill -> nat, enabled: bool, user: Uuid, a: Standing, skill: Skill, material: Uuid,
                          id: Uuid, existing: Option<Uuid>)
    requires Finds(d, user, skill, material, existing)
    ensures CreatePracticeTx(d, limits, enabled, user, a, skill, material, id, existing).1 == Created(id) <==>
            && user in d.users && id !in d.attempts
            && (forall i | i in d.attempts :: !OpenPractice(d.attempts[i], user, skill, material))
            && (Unmetered(a, enabled) || Source(AttemptSource, id, skill) in d.usage || |Charged(d.usage, user, skill)| < limits(skill))
  {
    var pending := Pending(d.usage, AttemptSource, id, [skill]);
    PendingIsNew(d.usage, AttemptSource, id, [skill]);
    NotExhausted(d.usage, limits, user, pending);
    if existing.Some? { assert existing.value in d.attempts; }
  }

  /** And then it is there, and paid for by its user for good: one unit of its skill, unless it need not be. */
  lemma CreatedIsCharged(users: set<Uuid>, before: seq<Event>, e: Event, later: seq<Event>, limits: Skill -> nat, enabled: bool)
    requires var d := Run(users, before, limits, enabled);
             e.CreatePractice? && Source(AttemptSource, e.id, e.skill) !in d.usage
             && CreatePracticeTx(d, limits, enabled, e.user, e.standing, e.skill, e.material, e.id, e.existing).1.Created?
    ensures var d, d' := Run(users, before, limits, enabled), Run(users, before + [e], limits, enabled);
            var s := Source(AttemptSource, e.id, e.skill);
            && d'.attempts == d.attempts[e.id := Attempt(e.user, e.skill, e.material, true, false)]
            && (Unmetered(e.standing, enabled) ==> d'.usage == d.usage)
            && (!Unmetered(e.standing, enabled) ==> d'.usage == d.usage[s := e.user])
            && (!Unmetered(e.standing, enabled) ==>
                  var usage := Run(users, before + [e] + later, limits, enabled).usage; s in usage && usage[s] == e.user)
  {
    var d, s := Run(users, before, limits, enabled), Source(AttemptSource, e.id, e.skill);
    assert (before + [e])[..|before + [e]| - 1] == before;
    PendingForOne(d.usage, AttemptSource, e.id, e.skill);
    ChargeForOne(d.usage, e.user, AttemptSource, e.id, e.skill);
    UsageGrows(users, before + [e], later, limits, enabled);
  }

  lemma OnlySkill(skill: Skill)
    ensures [skill][..|[skill]| - 1] == [] && [skill][|[skill]| - 1] == skill
  {
  }

  lemma PendingForOne(usage: map<Source, Uuid>, kind: Kind, id: Uuid, skill: Skill)
    requires Source(kind, id, skill) !in usage
    ensures Pending(usage, kind, id, [skill]) == [skill]
  {
    OnlySkill(skill);
    assert Pending(usage, kind, id, []) == [];
  }

  lemma ChargeForOne(usage: map<Source, Uuid>, user: Uuid, kind: Kind, id: Uuid, skill: Skill)
    requires Source(kind, id, skill) !in usage
    ensures Record(usage, user, kind, id, [skill]) == usage[Source(kind, id, skill) := user]
  {
    OnlySkill(skill);
    assert Record(usage, user, kind, id, []) == usage;
  }

  /** Whoever is not exempt pays for every skill of a source that nobody has paid for, and what is paid stays so. */
  lemma ConsumedIsCharged(users: set<Uuid>, before: seq<Event>, e: Event, later: seq<Event>, limits: Skill -> nat, skill: Skill)
    requires e.Consume? && skill in e.skills && !Unmetered(e.standing, true)
    requires ConsumeTx(Run(users, before, limits, true), limits, true, e.user, e.standing, e.kind, e.id, e.skills).1.Fine?
    ensures var u, u' := Run(users, before, limits, true).usage, Run(users, before + [e] + later, limits, true).usage;
            var s := Source(e.kind, e.id, skill);
            s in u' && u'[s] == if s in u then u[s] else e.user
  {
    var d := Run(users, before, limits, true);
    assert (before + [e])[..|before + [e]| - 1] == before;
    PendingIsNew(d.usage, e.kind, e.id, e.skills);
    RecordAdds(d.usage, e.user, e.kind, e.id, Pending(d.usage, e.kind, e.id, e.skills));
    UsageGrows(users, before + [e], later, limits, true);
  }

  /** A claimed mock is paid for in all its skills. */
  lemma ClaimedIsPaid(users: set<Uuid>, before: seq<Event>, e: Event, later: seq<Event>, limits: Skill -> nat, skill: Skill)
    requires e.Claim? && e.user in users && !e.staff
    ensures var u, u' := Run(users, before, limits, true).usage, Run(users, before + [e] + later, limits, true).usage;
            var s := Source(SessionSource, e.session, skill);
            s in u' && u'[s] == if s in u then u[s] else e.user
  {
    var d := Run(users, before, limits, true);
    UsersStay(users, before, limits, true);
    assert (before + [e])[..|before + [e]| - 1] == before;
    RecordAdds(d.usage, e.user, SessionSource, e.session, SKILLS);
    assert skill in SKILLS;
    UsageGrows(users, before + [e], later, limits, true);
  }
}
