/**
 Free quota and paid time together: both ledgers are run side by side, and a request looks up the live window of its
 account in the entitlements at its own instant.
 */
module AccessTheorems {
  import opened Common
  import Billing
  import BillingTheorems
  import Quota
  import QuotaTheorems

  datatype Joint = Joint(billing: Billing.Db, quota: Quota.Db)

  /** An event of the order ledger, or a request of an account at an instant. */
  datatype Event =
    | Ledger(entry: BillingTheorems.Event)
    | Account(request: QuotaTheorems.Event, now: nat)

  /** What both ledgers are run with. */
  datatype Setting = Setting(users: set<Uuid>, calendar: Billing.Calendar, limits: Skill -> nat)

  predicate HasAccess(d: Billing.Db, user: Uuid, t: nat)
  {
    exists e | e in d.entitlements :: Billing.LiveAt(e, user, t)
  }

  /** The request with the access its account has just now; staff and guests are told by the account itself. */
  function Truly(d: Billing.Db, e: QuotaTheorems.Event, now: nat): QuotaTheorems.Event
  {
    if e.Consume? || e.CreatePractice? then e.(standing := e.standing.(active := HasAccess(d, e.user, now))) else e
  }

  function Apply(w: Joint, e: Event, s: Setting): Joint
  {
    match e
    case Ledger(entry) => w.(billing := BillingTheorems.Apply(w.billing, entry, s.calendar))
    case Account(request, now) => w.(quota := QuotaTheorems.Apply(w.quota, Truly(w.billing, request, now), s.limits, true))
  }

  function Run(s: Setting, es: seq<Event>): Joint
  {
    if es == [] then Joint(Billing.Db(s.users, map[], []), Quota.Db(s.users, map[], map[]))
    else Apply(Run(s, es[..|es| - 1]), es[|es| - 1], s)
  }

  // ---- Each ledger by itself sees one of its own runs. ----

  function Entries(es: seq<Event>): seq<BillingTheorems.Event>
  {
    if es == [] then []
    else Entries(es[..|es| - 1]) + if es[|es| - 1].Ledger? then [es[|es| - 1].entry] else []
  }

  function Requests(s: Setting, es: seq<Event>): seq<QuotaTheorems.Event>
  {
    if es == [] then []
    else
      var front, e := es[..|es| - 1], es[|es| - 1];
      Requests(s, front) + if e.Account? then [Truly(Run(s, front).billing, e.request, e.now)] else []
  }

  /** So whatever holds over the runs of one ledger holds over the joint ones. */
  lemma {:induction false} Projections(s: Setting, es: seq<Event>)
    ensures Run(s, es).billing == BillingTheorems.Run(s.users, Entries(es), s.calendar)
    ensures Run(s, es).quota == QuotaTheorems.Run(s.users, Requests(s, es), s.limits, true)
  {
    if es != [] {
      var front, e := es[..|es| - 1], es[|es| - 1];
      Projections(s, front);
      if e.Ledger? {
        var all := Entries(front) + [e.entry];
        assert all[..|all| - 1] == Entries(front);
        assert Requests(s, es) == Requests(s, front);
      } else {
        var all := Requests(s, front) + [Truly(Run(s, front).billing, e.request, e.now)];
        assert all[..|all| - 1] == Requests(s, front);
        assert Entries(es) == Entries(front);
      }
    }
  }

  lemma {:induction false} EntriesConcat(a: seq<Event>, b: seq<Event>)
    ensures Entries(a + b) == Entries(a) + Entries(b)
  {
    if b == [] {
      assert a + b == a;
    } else {
      EntriesConcat(a, b[..|b| - 1]);
      assert (a + b)[..|a + b| - 1] == a + b[..|b| - 1];
    }
  }

  // ---- Paid time is free. ----

  /** What a request of this kind comes to. */
  function Outcome(w: Joint, e: QuotaTheorems.Event, now: nat, s: Setting): (Quota.Db, Quota.Result)
    requires e.Consume?
  {
    var t := Truly(w.billing, e, now);
    Quota.ConsumeTx(w.quota, s.limits, true, t.user, t.standing, t.kind, t.id, t.skills)
  }

  lemma WindowStays(s: Setting, before: seq<Event>, later: seq<Event>, i: nat, user: Uuid, t: nat)
    requires var es := Run(s, before).billing.entitlements;
             i < |es| && es[i].user == user && es[i].starts <= t < es[i].ends
    ensures var es := Run(s, before + later).billing.entitlements;
            i < |es| && (!es[i].revoked ==> Billing.LiveAt(es[i], user, t))
  {
    Projections(s, before);
    Projections(s, before + later);
    EntriesConcat(before, later);
    BillingTheorems.OrdersFollowTheirPath(s.users, Entries(before), Entries(later), s.calendar);
    var a, b := Run(s, before).billing.entitlements, Run(s, before + later).billing.entitlements;
    assert BillingTheorems.Weaker([a[i]], [b[i]]);
    assert [a[i]][0] == a[i] && [b[i]][0] == b[i];
  }

  /**
   Once an entitlement has been entered, every request its user makes in its window succeeds and charges nothing,
   whatever happens in between, as long as the entitlement has not been revoked.
   */
  lemma PaidTimeIsFree(s: Setting, before: seq<Event>, later: seq<Event>, i: nat, e: QuotaTheorems.Event, t: nat)
    requires e.Consume? && e.user in s.users
    requires var es := Run(s, before).billing.entitlements;
             i < |es| && es[i].user == e.user && es[i].starts <= t < es[i].ends
    ensures var w := Run(s, before + later);
            && i < |w.billing.entitlements|
            && (!w.billing.entitlements[i].revoked ==> Outcome(w, e, t, s) == (w.quota, Quota.Fine))
  {
    var w := Run(s, before + later);
    WindowStays(s, before, later, i, e.user, t);
    Projections(s, before + later);
    QuotaTheorems.UsersStay(s.users, Requests(s, before + later), s.limits, true);
    if !w.billing.entitlements[i].revoked {
      assert w.billing.entitlements[i] in w.billing.entitlements;
      assert HasAccess(w.billing, e.user, t);
    }
  }

  /** An account that is neither staff nor guest is refused exactly without a live window and with a skill used up. */
  lemma RefusedOnlyOutsideAccess(s: Setting, es: seq<Event>, e: QuotaTheorems.Event, now: nat)
    requires e.Consume? && e.user in s.users && !e.standing.staff && !e.standing.guest
    ensures var w := Run(s, es);
            Outcome(w, e, now, s).1.PaymentRequired?
            <==> !HasAccess(w.billing, e.user, now)
                 && exists k :: k in e.skills && Quota.Source(e.kind, e.id, k) !in w.quota.usage
                                && |Quota.Charged(w.quota.usage, e.user, k)| >= s.limits(k)
  {
    var w := Run(s, es);
    Projections(s, es);
    QuotaTheorems.UsersStay(s.users, Requests(s, es), s.limits, true);
    if !HasAccess(w.billing, e.user, now) {
      QuotaTheorems.RefusedWhenExhausted(w.quota, s.limits, e.user, Truly(w.billing, e, now).standing, e.kind, e.id, e.skills);
    }
  }

  // ---- Every unit charged is accounted for. ----

  /** Step `i` of the run charged this unit to its owner: a claimed mock, or a request made without a live window. */
  ghost predicate ChargedBy(s: Setting, es: seq<Event>, i: nat, x: Quota.Source, owner: Uuid)
    requires i < |es|
  {
    var w, e := Run(s, es[..i]), es[i];
    && e.Account? && x !in w.quota.usage
    && (|| (e.request.Claim? && e.request.user == owner && !e.request.staff && x.kind.SessionSource? && x.id == e.request.session)
        || (e.request.Consume? && e.request.user == owner && x.kind == e.request.kind && x.id == e.request.id
            && x.skill in e.request.skills && Unprivileged(w, e.request, e.now))
        || (e.request.CreatePractice? && e.request.user == owner && x.kind.AttemptSource? && x.id == e.request.id
            && x.skill == e.request.skill && Unprivileged(w, e.request, e.now)))
  }

  ghost predicate Unprivileged(w: Joint, e: QuotaTheorems.Event, now: nat)
    requires e.Consume? || e.CreatePractice?
  {
    !e.standing.staff && !e.standing.guest && !HasAccess(w.billing, e.user, now)
  }

  /** This unit was not there before the request, and is there after it. */
  ghost predicate Adds(w: Joint, e: QuotaTheorems.Event, now: nat, s: Setting, x: Quota.Source)
  {
    x !in w.quota.usage && x in After(w, e, now, s)
  }

  function After(w: Joint, e: QuotaTheorems.Event, now: nat, s: Setting): map<Quota.Source, Uuid>
  {
    QuotaTheorems.Apply(w.quota, Truly(w.billing, e, now), s.limits, true).usage
  }

  lemma ConsumeAdds(w: Joint, e: QuotaTheorems.Event, now: nat, s: Setting, x: Quota.Source)
    requires e.Consume? && Adds(w, e, now, s, x)
    ensures After(w, e, now, s)[x] == e.user && x.kind == e.kind && x.id == e.id && x.skill in e.skills
    ensures Unprivileged(w, e, now)
  {
    QuotaTheorems.PendingIsNew(w.quota.usage, e.kind, e.id, e.skills);
    QuotaTheorems.RecordAdds(w.quota.usage, e.user, e.kind, e.id, Quota.Pending(w.quota.usage, e.kind, e.id, e.skills));
  }

  lemma PracticeAdds(w: Joint, e: QuotaTheorems.Event, now: nat, s: Setting, x: Quota.Source)
    requires e.CreatePractice? && Adds(w, e, now, s, x)
    ensures After(w, e, now, s)[x] == e.user && x.kind.AttemptSource? && x.id == e.id && x.skill == e.skill
    ensures Unprivileged(w, e, now)
  {
    var pending := Quota.Pending(w.quota.usage, Quota.AttemptSource, e.id, [e.skill]);
    QuotaTheorems.PendingIsNew(w.quota.usage, Quota.AttemptSource, e.id, [e.skill]);
    QuotaTheorems.RecordAdds(w.quota.usage, e.user, Quota.AttemptSource, e.id, pending);
  }

  lemma ClaimAdds(w: Joint, e: QuotaTheorems.Event, now: nat, s: Setting, x: Quota.Source)
    requires e.Claim? && Adds(w, e, now, s, x)
    ensures After(w, e, now, s)[x] == e.user && !e.staff && x.kind.SessionSource? && x.id == e.session
  {
    QuotaTheorems.RecordAdds(w.quota.usage, e.user, Quota.SessionSource, e.session, SKILLS);
  }

  /** A unit that was charged earlier was charged by the same step of the shorter run. */
  lemma ChargedEarlier(s: Setting, es: seq<Event>, i: nat, x: Quota.Source, owner: Uuid)
    requires es != [] && i < |es| - 1 && ChargedBy(s, es[..|es| - 1], i, x, owner)
    ensures ChargedBy(s, es, i, x, owner)
  {
    assert es[..|es| - 1][..i] == es[..i];
  }

  /**
   After any run of both ledgers, every unit of free usage was charged to its owner by a guest mock they claimed, or by
   a request they made at an instant at which no window of theirs was live.
   */
  lemma {:induction false} EveryUnitWasCharged(s: Setting, es: seq<Event>, x: Quota.Source)
    requires x in Run(s, es).quota.usage
    ensures exists i: nat :: i < |es| && ChargedBy(s, es, i, x, Run(s, es).quota.usage[x])
  {
    var front, e := es[..|es| - 1], es[|es| - 1];
    var w := Run(s, front);
    if x in w.quota.usage {
      EveryUnitWasCharged(s, front, x);
      var owner := w.quota.usage[x];
      var i: nat :| i < |front| && ChargedBy(s, front, i, x, owner);
      if e.Account? { QuotaTheorems.UsageStep(w.quota, Truly(w.billing, e.request, e.now), s.limits, true); }
      ChargedEarlier(s, es, i, x, owner);
    } else {
      if e.request.Consume? { ConsumeAdds(w, e.request, e.now, s, x); }
      else if e.request.CreatePractice? { PracticeAdds(w, e.request, e.now, s, x); }
      else { ClaimAdds(w, e.request, e.now, s, x); }
      assert ChargedBy(s, es, |es| - 1, x, Run(s, es).quota.usage[x]);
    }
  }
}
