/** What holds of orders and entitlements after any run of payments, grants, refunds and revocations. */
module BillingTheorems {
  import opened Common
  import opened Billing

  datatype Event =
    | CreateOrder(id: Uuid, user: Uuid, amount: int, provider: string, days: int, meetings: nat)
    | SetProviderOrder(order: Uuid, reference: string)
    | Grant(to: Uuid, plan: Option<(int, nat)>, length: Option<int>, bonus: bool, at: nat)
    | Notify(sender: string, n: Notification, now: nat)
    | Revoke(entitlement: nat)
    | Meetings(of: nat, used: int)

  function Apply(d: Db, e: Event, calendar: Calendar): Db
  {
    match e
    case CreateOrder(id, user, amount, provider, days, meetings) => CreateOrderTx(d, id, user, amount, provider, days, meetings).0
    case SetProviderOrder(order, reference) => SetProviderOrderTx(d, order, reference).0
    case Grant(to, plan, length, bonus, at) => GrantTx(d, to, plan, length, if bonus then Bonus else Admin, at, calendar).0
    case Notify(sender, n, now) => NotifyTx(d, sender, n, now, calendar).0
    case Revoke(entitlement) => RevokeTx(d, entitlement).0
    case Meetings(of, used) => MeetingsTx(d, of, used).0
  }

  function Run(users: set<Uuid>, es: seq<Event>, calendar: Calendar): Db
  {
    if es == [] then Db(users, map[], []) else Apply(Run(users, es[..|es| - 1], calendar), es[|es| - 1], calendar)
  }

  // ---- Windows. ----

  predicate Counts(e: Entitlement, user: Uuid) { e.user == user && !e.revoked }

  predicate Apart(a: Entitlement, b: Entitlement) { a.ends <= b.starts || b.ends <= a.starts }

  ghost predicate Queued(es: seq<Entitlement>)
  {
    && (forall i | 0 <= i < |es| :: es[i].starts < es[i].ends && es[i].used <= es[i].meetings)
    && (forall i, j | 0 <= i < j < |es| && es[i].user == es[j].user && !es[i].revoked && !es[j].revoked :: Apart(es[i], es[j]))
  }

  lemma {:induction false} LastEndBounds(es: seq<Entitlement>, user: Uuid)
    ensures forall i | 0 <= i < |es| && Counts(es[i], user) :: es[i].ends <= LastEnd(es, user)
  {
    if es != [] { LastEndBounds(es[..|es| - 1], user); }
  }

  lemma InsertKeepsQueue(es: seq<Entitlement>, user: Uuid, source: Source, meetings: nat, now: nat, days: int, calendar: Calendar)
    requires Queued(es) && InsertEntitlement(es, user, source, meetings, now, days, calendar).Some?
    ensures Queued(InsertEntitlement(es, user, source, meetings, now, days, calendar).value)
  {
    LastEndBounds(es, user);
    var r := InsertEntitlement(es, user, source, meetings, now, days, calendar).value;
    forall i, j | 0 <= i < j < |r| && r[i].user == r[j].user && !r[i].revoked && !r[j].revoked ensures Apart(r[i], r[j]) {
      if j == |es| { assert Counts(es[i], user); } else { assert Apart(es[i], es[j]); }
    }
  }

  /** Fewer windows, or other counters, cannot make windows overlap. */
  ghost predicate Weaker(es: seq<Entitlement>, es': seq<Entitlement>)
  {
    && |es'| == |es|
    && forall i | 0 <= i < |es| ::
         && es'[i] == es[i].(revoked := es'[i].revoked, used := es'[i].used) && es'[i].used <= es'[i].meetings
         && (es[i].revoked ==> es'[i].revoked)
  }

  lemma WeakerKeepsQueue(es: seq<Entitlement>, es': seq<Entitlement>)
    requires Queued(es) && Weaker(es, es')
    ensures Queued(es')
  {
    forall i, j | 0 <= i < j < |es'| && es'[i].user == es'[j].user && !es'[i].revoked && !es'[j].revoked ensures Apart(es'[i], es'[j]) {
      assert Apart(es[i], es[j]);
    }
  }

  // ---- Orders and what they own. ----

  predicate Owns(d: Db, i: nat, id: Uuid) { i < |d.entitlements| && d.entitlements[i].source == Payment(id) }

  predicate Settled(s: Status) { s.Paid? || s.Refunded? }

  /** Who has paid owns an entitlement. */
  ghost predicate Entitled(d: Db)
  {
    forall id | id in d.orders && Settled(d.orders[id].status) :: exists i :: Owns(d, i, id)
  }

  /** An entitlement is owned by an order of its user that was paid, and is revoked once the order is refunded. */
  ghost predicate Owned(d: Db)
  {
    forall i: nat, id | Owns(d, i, id) ::
      && id in d.orders && Settled(d.orders[id].status) && d.entitlements[i].user == d.orders[id].user
      && (d.orders[id].status.Refunded? ==> d.entitlements[i].revoked)
  }

  ghost predicate OwnedOnce(d: Db)
  {
    forall i: nat, j: nat, id | Owns(d, i, id) && Owns(d, j, id) :: i == j
  }

  /** A settled order has a reference, and no two orders of a provider share one. */
  ghost predicate References(orders: map<Uuid, Order>)
  {
    && (forall id | id in orders :: Settled(orders[id].status) ==> orders[id].providerOrder.Some?)
    && (forall a, b | a in orders && b in orders && a != b && orders[a].provider == orders[b].provider &&
                      orders[a].providerOrder.Some? :: orders[a].providerOrder != orders[b].providerOrder)
  }

  /** Order `id` owns exactly one entitlement, of its own user, when it was paid, and none otherwise. */
  ghost predicate Ledger(d: Db) { Entitled(d) && Owned(d) && OwnedOnce(d) && References(d.orders) }

  /** Nothing about an order changes but its status, its reference, and these only as allowed. */
  ghost predicate OrdersEvolve(d: Db, d': Db)
  {
    && |d'.entitlements| >= |d.entitlements|
    && (forall i | 0 <= i < |d.entitlements| :: Weaker([d.entitlements[i]], [d'.entitlements[i]]))
    && forall id | id in d.orders ::
         && id in d'.orders
         && d'.orders[id] == d.orders[id].(status := d'.orders[id].status, providerOrder := d'.orders[id].providerOrder)
         && (d.orders[id].providerOrder.Some? ==> d'.orders[id].providerOrder == d.orders[id].providerOrder)
         && Path(d.orders[id].status, d'.orders[id].status)
  }

  /** A run takes an order along these lines only. */
  predicate Path(from: Status, to: Status)
  {
    from == to || (from.Pending? && !to.Pending?) || (from.Paid? && to.Refunded?)
  }

  ghost predicate DbOk(d: Db) { Queued(d.entitlements) && Ledger(d) }

  // ---- Each step keeps it. ----

  /** Entitlements are never taken away from the orders that own them. */
  lemma OwnersStay(d: Db, d': Db)
    requires Entitled(d) && |d.entitlements| <= |d'.entitlements|
    requires forall i | 0 <= i < |d.entitlements| :: d'.entitlements[i].source == d.entitlements[i].source
    requires forall x | x in d'.orders && Settled(d'.orders[x].status) :: x in d.orders && Settled(d.orders[x].status)
    ensures Entitled(d')
  {
    forall x | x in d'.orders && Settled(d'.orders[x].status) ensures exists i :: Owns(d', i, x) {
      var i :| Owns(d, i, x);
      assert Owns(d', i, x);
    }
  }

  /** Who owns what is told by source, user and revocation of the entitlements and by user and status of the orders. */
  lemma OwnershipStays(d: Db, d': Db)
    requires Entitled(d) && Owned(d) && OwnedOnce(d) && |d.entitlements| == |d'.entitlements|
    requires forall i | 0 <= i < |d.entitlements| ::
               && d'.entitlements[i].source == d.entitlements[i].source && d'.entitlements[i].user == d.entitlements[i].user
               && (d.entitlements[i].revoked ==> d'.entitlements[i].revoked)
    requires forall x | x in d.orders :: x in d'.orders && d'.orders[x].user == d.orders[x].user
    requires forall x | x in d.orders && Settled(d.orders[x].status) :: d'.orders[x].status == d.orders[x].status
    requires forall x | x in d'.orders && Settled(d'.orders[x].status) :: x in d.orders && Settled(d.orders[x].status)
    ensures Entitled(d') && Owned(d') && OwnedOnce(d')
  {
    OwnersStay(d, d');
    assert forall i: nat, x :: Owns(d', i, x) <==> Owns(d, i, x);
  }

  /** An order gets a reference nobody else of its provider has, or keeps what it had. */
  lemma ReferencesOneMore(orders: map<Uuid, Order>, id: Uuid, o: Order)
    requires References(orders) && (Settled(o.status) ==> o.providerOrder.Some?)
    requires o.providerOrder.Some? ==>
               forall x | x in orders && x != id && orders[x].provider == o.provider :: orders[x].providerOrder != o.providerOrder
    ensures References(orders[id := o])
  {
  }

  lemma Unshared(d: Db, id: Uuid, provider: string, reference: string)
    requires !Taken(d, id, provider, reference)
    ensures forall x | x in d.orders && x != id && d.orders[x].provider == provider :: d.orders[x].providerOrder != Some(reference)
  {
  }

  lemma CreateOrderKeeps(d: Db, id: Uuid, user: Uuid, amount: int, provider: string, days: int, meetings: nat)
    requires DbOk(d)
    ensures DbOk(CreateOrderTx(d, id, user, amount, provider, days, meetings).0)
    ensures OrdersEvolve(d, CreateOrderTx(d, id, user, amount, provider, days, meetings).0)
  {
    var d' := CreateOrderTx(d, id, user, amount, provider, days, meetings).0;
    if d' != d {
      ReferencesOneMore(d.orders, id, d'.orders[id]);
      OwnershipStays(d, d');
    }
  }

  lemma SetProviderOrderKeeps(d: Db, order: Uuid, reference: string)
    requires DbOk(d)
    ensures DbOk(SetProviderOrderTx(d, order, reference).0) && OrdersEvolve(d, SetProviderOrderTx(d, order, reference).0)
  {
    var d' := SetProviderOrderTx(d, order, reference).0;
    if d' != d {
      Unshared(d, order, d.orders[order].provider, reference);
      ReferencesOneMore(d.orders, order, d'.orders[order]);
      OwnershipStays(d, d');
    }
  }

  /** An entitlement that no order pays for is added. */
  lemma GiftKeepsLedger(d: Db, e: Entitlement)
    requires Ledger(d) && !e.source.Payment?
    ensures Ledger(d.(entitlements := d.entitlements + [e]))
  {
    var d' := d.(entitlements := d.entitlements + [e]);
    OwnersStay(d, d');
    assert forall i: nat, x :: Owns(d', i, x) <==> Owns(d, i, x);
  }

  lemma GrantKeeps(d: Db, user: Uuid, plan: Option<(int, nat)>, days: Option<int>, source: Source, now: nat, calendar: Calendar)
    requires DbOk(d) && !source.Payment?
    ensures DbOk(GrantTx(d, user, plan, days, source, now, calendar).0)
    ensures OrdersEvolve(d, GrantTx(d, user, plan, days, source, now, calendar).0)
  {
    var d' := GrantTx(d, user, plan, days, source, now, calendar).0;
    if d' != d {
      var length := if days.Some? then days.value else plan.value.0;
      InsertKeepsQueue(d.entitlements, user, source, plan.value.1, now, length, calendar);
      var (starts, ends) := Window(d.entitlements, user, now, length, calendar);
      GiftKeepsLedger(d, Entitlement(user, source, starts, ends, false, plan.value.1, 0));
    }
  }

  lemma WeakerKeeps(d: Db, es: seq<Entitlement>)
    requires DbOk(d) && Weaker(d.entitlements, es)
    ensures DbOk(d.(entitlements := es)) && OrdersEvolve(d, d.(entitlements := es))
  {
    WeakerKeepsQueue(d.entitlements, es);
    OwnershipStays(d, d.(entitlements := es));
  }

  /** An entitlement is added for an order that is paid now. */
  lemma PurchaseKeepsLedger(d: Db, id: Uuid, o: Order, e: Entitlement)
    requires Ledger(d) && id in d.orders && !Settled(d.orders[id].status)
    requires o.status.Paid? && e.source == Payment(id) && e.user == o.user && References(d.orders[id := o])
    ensures Ledger(Db(d.users, d.orders[id := o], d.entitlements + [e]))
  {
    var d', k := Db(d.users, d.orders[id := o], d.entitlements + [e]), |d.entitlements|;
    assert forall i: nat, x :: Owns(d', i, x) <==> Owns(d, i, x) || (i == k && x == id);
    forall x | x in d'.orders && Settled(d'.orders[x].status) ensures exists i :: Owns(d', i, x) {
      if x == id {
        assert Owns(d', k, x);
      } else {
        var i :| Owns(d, i, x);
        assert Owns(d', i, x);
      }
    }
  }

  lemma PaidKeeps(d: Db, id: Uuid, reference: string, now: nat, calendar: Calendar)
    requires DbOk(d) && id in d.orders && d.orders[id].status.Pending? && !Taken(d, id, d.orders[id].provider, reference)
    requires d.orders[id].providerOrder.Some? ==> d.orders[id].providerOrder.value == reference
    ensures var o := d.orders[id];
            var es := InsertEntitlement(d.entitlements, o.user, Payment(id), o.meetings, now, o.days, calendar);
            es.Some? ==>
              var d' := Db(d.users, d.orders[id := o.(status := Paid, providerOrder := Some(reference))], es.value);
              DbOk(d') && OrdersEvolve(d, d')
  {
    var o := d.orders[id];
    var o' := o.(status := Paid, providerOrder := Some(reference));
    if InsertEntitlement(d.entitlements, o.user, Payment(id), o.meetings, now, o.days, calendar).Some? {
      InsertKeepsQueue(d.entitlements, o.user, Payment(id), o.meetings, now, o.days, calendar);
      Unshared(d, id, o.provider, reference);
      ReferencesOneMore(d.orders, id, o');
      var (starts, ends) := Window(d.entitlements, o.user, now, o.days, calendar);
      PurchaseKeepsLedger(d, id, o', Entitlement(o.user, Payment(id), starts, ends, false, o.meetings, 0));
    }
  }

  /** The entitlement of an order has been revoked, and now the order is refunded. */
  lemma RefundKeepsLedger(d: Db, id: Uuid)
    requires Ledger(d) && id in d.orders && d.orders[id].status.Paid?
    requires forall i: nat | Owns(d, i, id) :: d.entitlements[i].revoked
    ensures Ledger(d.(orders := d.orders[id := d.orders[id].(status := Refunded)]))
  {
    var d' := d.(orders := d.orders[id := d.orders[id].(status := Refunded)]);
    assert forall i: nat, x :: Owns(d', i, x) <==> Owns(d, i, x);
    OwnersStay(d, d');
  }

  lemma RefundedKeeps(d: Db, id: Uuid, reference: string)
    requires DbOk(d) && id in d.orders && d.orders[id].status.Paid? && d.orders[id].providerOrder == Some(reference)
    ensures var d' := Db(d.users, d.orders[id := d.orders[id].(status := Refunded)], RevokeOrder(d.entitlements, id));
            DbOk(d') && OrdersEvolve(d, d')
  {
    var d1 := d.(entitlements := RevokeOrder(d.entitlements, id));
    WeakerKeeps(d, d1.entitlements);
    RefundKeepsLedger(d1, id);
  }

  lemma ClosedKeeps(d: Db, id: Uuid, reference: string, status: Status)
    requires DbOk(d) && id in d.orders && d.orders[id].status.Pending? && (status.Failed? || status.Cancelled?)
    requires !Taken(d, id, d.orders[id].provider, reference)
    requires d.orders[id].providerOrder.Some? ==> d.orders[id].providerOrder.value == reference
    ensures var d' := d.(orders := d.orders[id := d.orders[id].(status := status, providerOrder := Some(reference))]);
            DbOk(d') && OrdersEvolve(d, d')
  {
    var d' := d.(orders := d.orders[id := d.orders[id].(status := status, providerOrder := Some(reference))]);
    Unshared(d, id, d.orders[id].provider, reference);
    ReferencesOneMore(d.orders, id, d'.orders[id]);
    OwnershipStays(d, d');
  }

  lemma NotifyKeeps(d: Db, provider: string, n: Notification, now: nat, calendar: Calendar)
    requires DbOk(d)
    ensures DbOk(NotifyTx(d, provider, n, now, calendar).0) && OrdersEvolve(d, NotifyTx(d, provider, n, now, calendar).0)
  {
    var d' := NotifyTx(d, provider, n, now, calendar).0;
    if d' != d {
      var o := d.orders[n.order];
      if n.status.Paid? {
        PaidKeeps(d, n.order, n.providerOrder, now, calendar);
      } else if n.status.Refunded? {
        RefundedKeeps(d, n.order, n.providerOrder);
        assert o.(status := Refunded, providerOrder := Some(n.providerOrder)) == o.(status := Refunded);
      } else {
        ClosedKeeps(d, n.order, n.providerOrder, n.status);
      }
    }
  }

  lemma EventKeeps(d: Db, e: Event, calendar: Calendar)
    requires DbOk(d)
    ensures DbOk(Apply(d, e, calendar)) && OrdersEvolve(d, Apply(d, e, calendar))
  {
    match e {
      case CreateOrder(id, user, amount, provider, days, meetings) => CreateOrderKeeps(d, id, user, amount, provider, days, meetings);
      case SetProviderOrder(order, reference) => SetProviderOrderKeeps(d, order, reference);
      case Grant(to, plan, length, bonus, at) => GrantKeeps(d, to, plan, length, if bonus then Bonus else Admin, at, calendar);
      case Notify(sender, n, now) => NotifyKeeps(d, sender, n, now, calendar);
      case Revoke(_) => WeakerKeeps(d, Apply(d, e, calendar).entitlements);
      case Meetings(_, _) => WeakerKeeps(d, Apply(d, e, calendar).entitlements);
    }
  }

  /**
   After any run: the windows of a user that count are pairwise disjoint, and every order owns exactly one entitlement
   when it is paid or refunded and none otherwise, a revoked one when it is refunded.
   */
  lemma {:induction false} LedgerHolds(users: set<Uuid>, es: seq<Event>, calendar: Calendar)
    ensures DbOk(Run(users, es, calendar))
  {
    if es != [] {
      LedgerHolds(users, es[..|es| - 1], calendar);
      EventKeeps(Run(users, es[..|es| - 1], calendar), es[|es| - 1], calendar);
    }
  }

  lemma EvolvesFurther(a: Db, b: Db, c: Db)
    requires OrdersEvolve(a, b) && OrdersEvolve(b, c)
    ensures OrdersEvolve(a, c)
  {
    forall i | 0 <= i < |a.entitlements| ensures Weaker([a.entitlements[i]], [c.entitlements[i]]) {
      assert Weaker([a.entitlements[i]], [b.entitlements[i]]) && Weaker([b.entitlements[i]], [c.entitlements[i]]);
      assert [b.entitlements[i]][0] == b.entitlements[i] && [a.entitlements[i]][0] == a.entitlements[i];
    }
  }

  lemma RunOneMore(users: set<Uuid>, before: seq<Event>, later: seq<Event>, calendar: Calendar)
    requires later != []
    ensures Run(users, before + later, calendar)
            == Apply(Run(users, before + later[..|later| - 1], calendar), later[|later| - 1], calendar)
  {
    assert (before + later)[..|before + later| - 1] == before + later[..|later| - 1];
  }

  /**
   Over the rest of any run: a status moves only from pending to paid, failed or cancelled and from paid to refunded, a
   provider's reference never changes once it is set, amounts and owners never change, and a revoked entitlement stays
   revoked.
   */
  lemma {:induction false} OrdersFollowTheirPath(users: set<Uuid>, before: seq<Event>, later: seq<Event>, calendar: Calendar)
    ensures OrdersEvolve(Run(users, before, calendar), Run(users, before + later, calendar))
  {
    LedgerHolds(users, before, calendar);
    if later == [] {
      assert before + later == before;
    } else {
      var front := later[..|later| - 1];
      OrdersFollowTheirPath(users, before, front, calendar);
      LedgerHolds(users, before + front, calendar);
      EventKeeps(Run(users, before + front, calendar), later[|later| - 1], calendar);
      RunOneMore(users, before, later, calendar);
      EvolvesFurther(Run(users, before, calendar), Run(users, before + front, calendar), Run(users, before + later, calendar));
    }
  }

  lemma {:induction false} UsersStay(users: set<Uuid>, es: seq<Event>, calendar: Calendar)
    ensures Run(users, es, calendar).users == users
  {
    if es != [] { UsersStay(users, es[..|es| - 1], calendar); }
  }

  /** The table after an accepted notification: the order has its status and still matches it. */
  lemma Accepted(d: Db, provider: string, n: Notification, now: nat, calendar: Calendar)
    requires NotifyTx(d, provider, n, now, calendar).1.Changed? || NotifyTx(d, provider, n, now, calendar).1.Unchanged?
    ensures var (d', r) := NotifyTx(d, provider, n, now, calendar);
            && n.order in d'.orders && d'.orders[n.order].user in d'.users
            && d'.orders[n.order].status == n.status && Matches(d'.orders[n.order], provider, n)
            && (r.Changed? ==> d'.orders[n.order].providerOrder == Some(n.providerOrder))
  {}

  /**
   A notification that was accepted once never changes anything again, whatever happens in between: not when a payment
   is announced again after its refund, and not at any other time. It is acknowledged as long as the order still has
   its status and reference, and refused otherwise; a notification that changed something keeps its reference.
   */
  lemma RepeatedNotification(
      users: set<Uuid>, before: seq<Event>, provider: string, n: Notification, now: nat, later: seq<Event>, again: nat,
      calendar: Calendar)
    requires var r := NotifyTx(Run(users, before, calendar), provider, n, now, calendar).1; r.Changed? || r.Unchanged?
    ensures var first := NotifyTx(Run(users, before, calendar), provider, n, now, calendar).1;
            var d := Run(users, before + [Notify(provider, n, now)] + later, calendar);
            && n.order in d.orders
            && NotifyTx(d, provider, n, again, calendar)
               == (d, if d.orders[n.order].status == n.status && Matches(d.orders[n.order], provider, n) then Unchanged
                      else InvalidCallback)
            && (first.Changed? ==> Matches(d.orders[n.order], provider, n))
  {
    var sent := before + [Notify(provider, n, now)];
    assert sent[..|sent| - 1] == before;
    Accepted(Run(users, before, calendar), provider, n, now, calendar);
    OrdersFollowTheirPath(users, sent, later, calendar);
    UsersStay(users, sent, calendar);
    UsersStay(users, sent + later, calendar);
  }

  /** An order that was created keeps what it was created with over the rest of any run. */
  lemma OrdersAreAsCreated(
      users: set<Uuid>, before: seq<Event>, id: Uuid, user: Uuid, amount: int, provider: string, days: int, meetings: nat,
      later: seq<Event>, calendar: Calendar)
    requires CreateOrderTx(Run(users, before, calendar), id, user, amount, provider, days, meetings).1.Changed?
    ensures var d := Run(users, before + [CreateOrder(id, user, amount, provider, days, meetings)] + later, calendar);
            && id in d.orders && d.orders[id].user == user && d.orders[id].amount == amount && d.orders[id].currency == "KZT"
            && d.orders[id].provider == provider && d.orders[id].days == days && d.orders[id].meetings == meetings
  {
    var created := before + [CreateOrder(id, user, amount, provider, days, meetings)];
    assert created[..|created| - 1] == before;
    OrdersFollowTheirPath(users, created, later, calendar);
  }

  // ---- What is bought. ----

  /** The user's windows that count end at `t` at the latest, and one of them does if there are any. */
  ghost predicate QueueEndsAt(es: seq<Entitlement>, user: Uuid, t: nat)
  {
    && (forall i | 0 <= i < |es| && Counts(es[i], user) :: es[i].ends <= t)
    && (t == 0 || exists i :: 0 <= i < |es| && Counts(es[i], user) && es[i].ends == t)
  }

  lemma {:induction false} LastEndIsReached(es: seq<Entitlement>, user: Uuid)
    ensures QueueEndsAt(es, user, LastEnd(es, user))
  {
    LastEndBounds(es, user);
    if es != [] {
      var front := es[..|es| - 1];
      LastEndIsReached(front, user);
      if LastEnd(es, user) != 0 && LastEnd(es, user) == LastEnd(front, user) {
        var i :| 0 <= i < |front| && Counts(front[i], user) && front[i].ends == LastEnd(front, user);
        assert Counts(es[i], user);
      }
    }
  }

  /** What one has paid for is what the order says, from wherever the window begins. */
  ghost predicate AsOrdered(e: Entitlement, o: Order, calendar: Calendar)
  {
    e.user == o.user && e.ends == calendar(e.starts, o.days) && e.meetings == o.meetings
  }

  ghost predicate AllAsOrdered(d: Db, calendar: Calendar)
  {
    forall i: nat, id | Owns(d, i, id) :: id in d.orders && AsOrdered(d.entitlements[i], d.orders[id], calendar)
  }

  lemma OwnedStays(d: Db, d': Db, i: nat, id: Uuid, calendar: Calendar)
    requires DbOk(d) && OrdersEvolve(d, d') && AllAsOrdered(d, calendar) && i < |d.entitlements| && Owns(d', i, id)
    ensures id in d'.orders && AsOrdered(d'.entitlements[i], d'.orders[id], calendar)
  {
    assert Weaker([d.entitlements[i]], [d'.entitlements[i]]);
    assert [d.entitlements[i]][0] == d.entitlements[i] && [d'.entitlements[i]][0] == d'.entitlements[i];
    assert Owns(d, i, id);
  }

  lemma NewIsAsOrdered(d: Db, e: Event, calendar: Calendar, i: nat, id: Uuid)
    requires i >= |d.entitlements| && Owns(Apply(d, e, calendar), i, id)
    ensures var d' := Apply(d, e, calendar); id in d'.orders && AsOrdered(d'.entitlements[i], d'.orders[id], calendar)
  {}

  /** After any run every entitlement of an order lasts for the order's days and brings its meetings. */
  lemma {:induction false} PaidAsOrdered(users: set<Uuid>, es: seq<Event>, calendar: Calendar)
    ensures AllAsOrdered(Run(users, es, calendar), calendar)
  {
    if es != [] {
      var d, e := Run(users, es[..|es| - 1], calendar), es[|es| - 1];
      var d' := Apply(d, e, calendar);
      PaidAsOrdered(users, es[..|es| - 1], calendar);
      LedgerHolds(users, es[..|es| - 1], calendar);
      EventKeeps(d, e, calendar);
      forall i: nat, id | Owns(d', i, id) ensures id in d'.orders && AsOrdered(d'.entitlements[i], d'.orders[id], calendar) {
        if i < |d.entitlements| { OwnedStays(d, d', i, id, calendar); } else { NewIsAsOrdered(d, e, calendar, i, id); }
      }
    }
  }

  /** One entitlement has been added at the end of its user's queue, or now. */
  ghost predicate Bought(es: seq<Entitlement>, es': seq<Entitlement>, user: Uuid, source: Source, meetings: nat, now: nat, days: int,
                         calendar: Calendar)
  {
    && |es'| == |es| + 1 && es'[..|es|] == es
    && exists queue: nat ::
         && QueueEndsAt(es, user, queue)
         && var starts := if queue > now then queue else now;
            && es'[|es|] == Entitlement(user, source, starts, calendar(starts, days), false, meetings, 0)
            && QueueEndsAt(es', user, calendar(starts, days))
  }

  lemma InsertBuys(es: seq<Entitlement>, user: Uuid, source: Source, meetings: nat, now: nat, days: int, calendar: Calendar)
    requires InsertEntitlement(es, user, source, meetings, now, days, calendar).Some?
    ensures Bought(es, InsertEntitlement(es, user, source, meetings, now, days, calendar).value, user, source, meetings, now, days, calendar)
  {
    var es' := InsertEntitlement(es, user, source, meetings, now, days, calendar).value;
    LastEndIsReached(es, user);
    LastEndIsReached(es', user);
    GrantExtendsQueue(es, user, source, meetings, now, days, calendar);
  }

  /**
   A payment that is entered appends a window of the order's days and meetings to the user's queue, and moves the end of
   the queue there.
   */
  lemma PaymentBuys(d: Db, provider: string, n: Notification, now: nat, calendar: Calendar)
    requires NotifyTx(d, provider, n, now, calendar).1 == Changed(true)
    ensures var d' := NotifyTx(d, provider, n, now, calendar).0;
            && n.order in d.orders && n.order in d'.orders
            && var o := d.orders[n.order];
               && d'.orders == d.orders[n.order := o.(status := Paid, providerOrder := Some(n.providerOrder))]
               && Bought(d.entitlements, d'.entitlements, o.user, Payment(n.order), o.meetings, now, o.days, calendar)
  {
    var o := d.orders[n.order];
    InsertBuys(d.entitlements, o.user, Payment(n.order), o.meetings, now, o.days, calendar);
  }

  /** So does a grant, with the days it names or else the plan's, and the plan's meetings. */
  lemma GrantBuys(d: Db, user: Uuid, plan: Option<(int, nat)>, days: Option<int>, source: Source, now: nat, calendar: Calendar)
    requires !source.Payment? && GrantTx(d, user, plan, days, source, now, calendar).1.Changed?
    ensures var d' := GrantTx(d, user, plan, days, source, now, calendar).0;
            && user in d.users && plan.Some? && d'.orders == d.orders
            && Bought(d.entitlements, d'.entitlements, user, source, plan.value.1, now,
                      if days.Some? then days.value else plan.value.0, calendar)
  {
    InsertBuys(d.entitlements, user, source, plan.value.1, now, if days.Some? then days.value else plan.value.0, calendar);
  }

  /** Every other notification that is accepted adds nothing; a refund revokes what the order owns and nothing else. */
  lemma RefundTakesItsOwn(d: Db, provider: string, n: Notification, now: nat, calendar: Calendar)
    requires NotifyTx(d, provider, n, now, calendar).1 == Changed(false)
    ensures var d' := NotifyTx(d, provider, n, now, calendar).0;
            && n.order in d.orders
            && d'.orders == d.orders[n.order := d.orders[n.order].(status := n.status, providerOrder := Some(n.providerOrder))]
            && |d'.entitlements| == |d.entitlements|
            && forall i: nat | i < |d.entitlements| ::
                 d'.entitlements[i]
                 == if n.status.Refunded? && Owns(d, i, n.order) then d.entitlements[i].(revoked := true) else d.entitlements[i]
  {}

  /** With days that move forward, only a reference that is taken keeps a matching payment from being entered. */
  lemma PaymentIsEntered(users: set<Uuid>, es: seq<Event>, provider: string, n: Notification, now: nat, calendar: Calendar)
    requires Forward(calendar)
    requires var d := Run(users, es, calendar);
             && n.order in d.orders && d.orders[n.order].user in d.users && d.orders[n.order].days > 0
             && Matches(d.orders[n.order], provider, n) && d.orders[n.order].status.Pending? && n.status.Paid?
    ensures var d := Run(users, es, calendar);
            NotifyTx(d, provider, n, now, calendar).1
            == if Taken(d, n.order, provider, n.providerOrder) then ConstraintError else Changed(true)
  {
    LedgerHolds(users, es, calendar);
    var d := Run(users, es, calendar);
    var o := d.orders[n.order];
    forall e | e in d.entitlements ensures e.source != Payment(n.order) {
      var i :| 0 <= i < |d.entitlements| && d.entitlements[i] == e;
      assert Owns(d, i, n.order) <==> e.source == Payment(n.order);
    }
  }

  /** A new window begins where the queue ends: nothing of what was bought before is lost. */
  lemma GrantExtendsQueue(es: seq<Entitlement>, user: Uuid, source: Source, meetings: nat, now: nat, days: int, calendar: Calendar)
    requires InsertEntitlement(es, user, source, meetings, now, days, calendar).Some?
    ensures var es' := InsertEntitlement(es, user, source, meetings, now, days, calendar).value;
            && LastEnd(es', user) == calendar(if LastEnd(es, user) > now then LastEnd(es, user) else now, days)
            && LastEnd(es', user) > LastEnd(es, user)
            && es'[..|es|] == es
  {
    var es' := InsertEntitlement(es, user, source, meetings, now, days, calendar).value;
    assert es'[..|es'| - 1] == es;
  }

  // ---- At any instant. ----

  function LiveCount(es: seq<Entitlement>, user: Uuid, t: nat): nat
  {
    if es == [] then 0 else LiveCount(es[..|es| - 1], user, t) + if LiveAt(es[|es| - 1], user, t) then 1 else 0
  }

  lemma {:induction false} NobodyLive(es: seq<Entitlement>, user: Uuid, t: nat)
    ensures LiveCount(es, user, t) == 0 <==> forall i | 0 <= i < |es| :: !LiveAt(es[i], user, t)
  {
    if es != [] { NobodyLive(es[..|es| - 1], user, t); }
  }

  /** At most one window is live. */
  lemma {:induction false} OneLive(es: seq<Entitlement>, user: Uuid, t: nat)
    requires Queued(es)
    ensures LiveCount(es, user, t) <= 1
    ensures forall i, j | 0 <= i < j < |es| :: !LiveAt(es[i], user, t) || !LiveAt(es[j], user, t)
  {
    if es != [] {
      var front, last := es[..|es| - 1], es[|es| - 1];
      OneLive(front, user, t);
      NobodyLive(front, user, t);
      forall i | 0 <= i < |front| ensures !LiveAt(es[i], user, t) || !LiveAt(last, user, t) {
        assert es[i].user == last.user && !es[i].revoked && !last.revoked ==> Apart(es[i], es[|es| - 1]);
      }
    }
  }

  /** So the choice of the snapshot is no choice: whatever it picks is the only live window. */
  lemma SnapshotIsUnambiguous(users: set<Uuid>, events: seq<Event>, calendar: Calendar, user: Uuid, t: nat, i: nat, j: nat)
    requires var es := Run(users, events, calendar).entitlements;
             i < |es| && j < |es| && LiveAt(es[i], user, t) && LiveAt(es[j], user, t)
    ensures i == j
  {
    LedgerHolds(users, events, calendar);
    OneLive(Run(users, events, calendar).entitlements, user, t);
  }

  /** How many instants before `horizon` the user has access. */
  function Covered(es: seq<Entitlement>, user: Uuid, horizon: nat): nat
  {
    if horizon == 0 then 0
    else Covered(es, user, horizon - 1) + if exists i | 0 <= i < |es| :: LiveAt(es[i], user, horizon - 1) then 1 else 0
  }

  function Lengths(es: seq<Entitlement>, user: Uuid): int
  {
    if es == [] then 0
    else Lengths(es[..|es| - 1], user) + if Counts(es[|es| - 1], user) then es[|es| - 1].ends - es[|es| - 1].starts else 0
  }

  function Part(e: Entitlement, user: Uuid, horizon: nat): int
  {
    if !Counts(e, user) || horizon <= e.starts then 0 else if horizon < e.ends then horizon - e.starts else e.ends - e.starts
  }

  lemma {:induction false} CoveredSplits(es: seq<Entitlement>, user: Uuid, horizon: nat)
    requires Queued(es) && es != []
    ensures Covered(es, user, horizon) == Covered(es[..|es| - 1], user, horizon) + Part(es[|es| - 1], user, horizon)
  {
    var front, last := es[..|es| - 1], es[|es| - 1];
    if horizon > 0 {
      CoveredSplits(es, user, horizon - 1);
      OneLive(es, user, horizon - 1);
      assert (exists i | 0 <= i < |es| :: LiveAt(es[i], user, horizon - 1))
         <==> (exists i | 0 <= i < |front| :: LiveAt(front[i], user, horizon - 1)) || LiveAt(last, user, horizon - 1) by {
        if i :| 0 <= i < |front| && LiveAt(front[i], user, horizon - 1) { assert es[i] == front[i]; }
        if LiveAt(last, user, horizon - 1) { assert es[|es| - 1] == last; }
      }
      assert forall i | 0 <= i < |front| :: front[i] == es[i];
    }
  }

  /** Total access is the sum of the lengths of the windows that count: nothing is granted twice or lost. */
  lemma {:induction false} AccessIsSumOfLengths(es: seq<Entitlement>, user: Uuid, horizon: nat)
    requires Queued(es) && horizon >= LastEnd(es, user)
    ensures Covered(es, user, horizon) == Lengths(es, user)
  {
    if es == [] {
      NothingCovered(user, horizon);
    } else {
      LastEndBounds(es, user);
      CoveredSplits(es, user, horizon);
      AccessIsSumOfLengths(es[..|es| - 1], user, horizon);
    }
  }

  lemma {:induction false} NothingCovered(user: Uuid, horizon: nat)
    ensures Covered([], user, horizon) == 0
  {
    if horizon > 0 { NothingCovered(user, horizon - 1); }
  }
}
