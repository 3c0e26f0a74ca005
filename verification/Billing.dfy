/**
 Orders and entitlements. Every transaction holds the locks it needs, so each is one step. Calendar arithmetic is a
 function from a start and a number of days to an end. Entitlements are kept in the order they were inserted, and
 are identified by their place.
 */
module Billing {
  import opened Common

  type Calendar = (nat, int) -> nat

  /** Adding a positive number of days moves forward. */
  ghost predicate Forward(calendar: Calendar) { forall t: nat, d: int | d > 0 :: calendar(t, d) > t }

  datatype Status = Pending | Paid | Failed | Cancelled | Refunded

  datatype Order = Order(
    user: Uuid, amount: int, currency: string, provider: string, providerOrder: Option<string>, status: Status,
    days: int, meetings: nat)

  datatype Source = Payment(order: Uuid) | Admin | Bonus

  datatype Entitlement = Entitlement(
    user: Uuid, source: Source, starts: nat, ends: nat, revoked: bool, meetings: nat, used: nat)

  datatype Db = Db(users: set<Uuid>, orders: map<Uuid, Order>, entitlements: seq<Entitlement>)

  datatype Notification = Notification(
    order: Uuid, providerOrder: string, status: Status, amount: int, currency: string)

  datatype Result = Changed(paid: bool) | Unchanged | NotFound | InvalidCallback | Invalid | ConstraintError

  // ---- The transactions. ----

  function CreateOrderTx(d: Db, id: Uuid, user: Uuid, amount: int, provider: string, days: int, meetings: nat): (Db, Result)
  {
    if id in d.orders || user !in d.users || amount < 0 then (d, ConstraintError)
    else (d.(orders := d.orders[id := Order(user, amount, "KZT", provider, None, Pending, days, meetings)]), Changed(false))
  }

  /** Another order of the same provider has this reference already. */
  predicate Taken(d: Db, id: Uuid, provider: string, reference: string)
  {
    exists o | o in d.orders :: o != id && d.orders[o].provider == provider && d.orders[o].providerOrder == Some(reference)
  }

  function SetProviderOrderTx(d: Db, id: Uuid, reference: string): (Db, Result)
  {
    if reference == "" then (d, InvalidCallback)
    else if id !in d.orders || (d.orders[id].providerOrder.Some? && d.orders[id].providerOrder.value != reference) then (d, InvalidCallback)
    else if Taken(d, id, d.orders[id].provider, reference) then (d, ConstraintError)
    else (d.(orders := d.orders[id := d.orders[id].(providerOrder := Some(reference))]), Changed(false))
  }

  /** The latest end of the user's windows that are not revoked. */
  function LastEnd(es: seq<Entitlement>, user: Uuid): nat
  {
    if es == [] then 0
    else
      var last, before := es[|es| - 1], LastEnd(es[..|es| - 1], user);
      if last.user == user && !last.revoked && last.ends > before then last.ends else before
  }

  /** A new window begins now, or where the user's last one ends. */
  function Window(es: seq<Entitlement>, user: Uuid, now: nat, days: int, calendar: Calendar): (nat, nat)
  {
    var start := if LastEnd(es, user) > now then LastEnd(es, user) else now;
    (start, calendar(start, days))
  }

  /** None when the window is empty, which the table refuses, or the order has an entitlement already. */
  function InsertEntitlement(es: seq<Entitlement>, user: Uuid, source: Source, meetings: nat, now: nat, days: int, calendar: Calendar)
    : Option<seq<Entitlement>>
  {
    var (starts, ends) := Window(es, user, now, days, calendar);
    if ends <= starts || (source.Payment? && exists e | e in es :: e.source == source) then None
    else Some(es + [Entitlement(user, source, starts, ends, false, meetings, 0)])
  }

  function GrantTx(d: Db, user: Uuid, plan: Option<(int, nat)>, days: Option<int>, source: Source, now: nat, calendar: Calendar): (Db, Result)
    requires !source.Payment?
  {
    if user !in d.users || plan.None? then (d, NotFound)
    else
      var es := InsertEntitlement(d.entitlements, user, source, plan.value.1, now,
                                  if days.Some? then days.value else plan.value.0, calendar);
      if es.None? then (d, ConstraintError) else (d.(entitlements := es.value), Changed(false))
  }

  predicate ValidMove(from: Status, to: Status)
  {
    (from.Pending? && (to.Paid? || to.Failed? || to.Cancelled?)) || (from.Paid? && to.Refunded?)
  }

  predicate Matches(o: Order, provider: string, n: Notification)
  {
    && o.provider == provider && n.currency == o.currency && n.amount == o.amount && n.providerOrder != ""
    && (o.providerOrder.Some? ==> o.providerOrder.value == n.providerOrder)
  }

  function RevokeOrder(es: seq<Entitlement>, order: Uuid): seq<Entitlement>
  {
    seq(|es|, i requires 0 <= i < |es| => if es[i].source == Payment(order) then es[i].(revoked := true) else es[i])
  }

  function NotifyTx(d: Db, provider: string, n: Notification, now: nat, calendar: Calendar): (Db, Result)
  {
    if n.order !in d.orders then (d, NotFound)
    else
      var o := d.orders[n.order];
      if !Matches(o, provider, n) then (d, InvalidCallback)
      else if o.user !in d.users then (d, NotFound)
      else if n.status == o.status then (d, Unchanged)
      else if !ValidMove(o.status, n.status) then (d, InvalidCallback)
      else if Taken(d, n.order, o.provider, n.providerOrder) then (d, ConstraintError)
      else
        var orders := d.orders[n.order := o.(status := n.status, providerOrder := Some(n.providerOrder))];
        if n.status.Paid? then
          var es := InsertEntitlement(d.entitlements, o.user, Payment(n.order), o.meetings, now, o.days, calendar);
          if es.None? then (d, ConstraintError) else (Db(d.users, orders, es.value), Changed(true))
        else if n.status.Refunded? then (Db(d.users, orders, RevokeOrder(d.entitlements, n.order)), Changed(false))
        else (d.(orders := orders), Changed(false))
  }

  function RevokeTx(d: Db, id: nat): (Db, Result)
  {
    if id >= |d.entitlements| then (d, NotFound)
    else (d.(entitlements := d.entitlements[id := d.entitlements[id].(revoked := true)]), Changed(false))
  }

  function MeetingsTx(d: Db, id: nat, used: int): (Db, Result)
  {
    if id >= |d.entitlements| then (d, NotFound)
    else if used < 0 || used > d.entitlements[id].meetings then (d, Invalid)
    else (d.(entitlements := d.entitlements[id := d.entitlements[id].(used := used)]), Changed(false))
  }

  predicate LiveAt(e: Entitlement, user: Uuid, t: nat) { e.user == user && !e.revoked && e.starts <= t < e.ends }

  // ---- The repository. ----

  class Repository {
    const calendar: Calendar
    const users: set<Uuid>
    var orders: map<Uuid, Order>
    var entitlements: seq<Entitlement>

    ghost function Tables(): Db
      reads this
    {
      Db(users, orders, entitlements)
    }

    constructor (calendar: Calendar, users: set<Uuid>)
      ensures Tables() == Db(users, map[], []) && this.calendar == calendar
    {
      this.calendar, this.users, orders, entitlements := calendar, users, map[], [];
    }

    method CreateOrder(id: Uuid, user: Uuid, amount: int, provider: string, days: int, meetings: nat) returns (r: Result)
      modifies this
      ensures (Tables(), r) == CreateOrderTx(old(Tables()), id, user, amount, provider, days, meetings)
    {
      if id in orders || user !in users || amount < 0 { return ConstraintError; }
      orders := orders[id := Order(user, amount, "KZT", provider, None, Pending, days, meetings)];
      return Changed(false);
    }

    method SetProviderOrder(id: Uuid, reference: string) returns (r: Result)
      modifies this
      ensures (Tables(), r) == SetProviderOrderTx(old(Tables()), id, reference)
    {
      if reference == "" { return InvalidCallback; }
      if id !in orders || (orders[id].providerOrder.Some? && orders[id].providerOrder.value != reference) { return InvalidCallback; }
      if exists o | o in orders :: o != id && orders[o].provider == orders[id].provider && orders[o].providerOrder == Some(reference) {
        return ConstraintError;
      }
      orders := orders[id := orders[id].(providerOrder := Some(reference))];
      return Changed(false);
    }

    method MaxEnd(user: Uuid) returns (last: nat)
      ensures last == LastEnd(entitlements, user)
    {
      last := 0;
      for i := 0 to |entitlements|
        invariant last == LastEnd(entitlements[..i], user)
      {
        var e := entitlements[i];
        assert entitlements[..i + 1][..i] == entitlements[..i];
        if e.user == user && !e.revoked && e.ends > last { last := e.ends; }
      }
      assert entitlements[..|entitlements|] == entitlements;
    }

    method Insert(user: Uuid, source: Source, meetings: nat, now: nat, days: int) returns (ok: bool)
      modifies this`entitlements
      ensures var es := InsertEntitlement(old(entitlements), user, source, meetings, now, days, calendar);
              ok == es.Some? && entitlements == if ok then es.value else old(entitlements)
    {
      var start := now;
      var last := MaxEnd(user);
      if last > start { start := last; }
      var end := calendar(start, days);
      if end <= start || (source.Payment? && exists e | e in entitlements :: e.source == source) { return false; }
      entitlements := entitlements + [Entitlement(user, source, start, end, false, meetings, 0)];
      return true;
    }

    method Grant(user: Uuid, plan: Option<(int, nat)>, days: Option<int>, source: Source, now: nat) returns (r: Result)
      requires !source.Payment?
      modifies this
      ensures (Tables(), r) == GrantTx(old(Tables()), user, plan, days, source, now, calendar)
    {
      if user !in users || plan.None? { return NotFound; }
      var length := plan.value.0;
      if days.Some? { length := days.value; }
      var ok := Insert(user, source, plan.value.1, now, length);
      return if ok then Changed(false) else ConstraintError;
    }

    method Notify(provider: string, n: Notification, now: nat) returns (r: Result)
      modifies this
      ensures (Tables(), r) == NotifyTx(old(Tables()), provider, n, now, calendar)
    {
      if n.order !in orders { return NotFound; }
      var o := orders[n.order];
      if o.provider != provider || n.currency != o.currency || n.amount != o.amount || n.providerOrder == ""
         || (o.providerOrder.Some? && o.providerOrder.value != n.providerOrder) {
        return InvalidCallback;
      }
      if o.user !in users { return NotFound; }
      if n.status == o.status { return Unchanged; }
      if !ValidMove(o.status, n.status) { return InvalidCallback; }
      if exists x | x in orders :: x != n.order && orders[x].provider == o.provider && orders[x].providerOrder == Some(n.providerOrder) {
        return ConstraintError;
      }
      var paid := n.status.Paid?;
      if paid {
        var ok := Insert(o.user, Payment(n.order), o.meetings, now, o.days);
        if !ok { return ConstraintError; }
      }
      orders := orders[n.order := o.(status := n.status, providerOrder := Some(n.providerOrder))];
      if n.status.Refunded? { RevokeAllOf(n.order); }
      return Changed(paid);
    }

    method RevokeAllOf(order: Uuid)
      modifies this`entitlements
      ensures entitlements == RevokeOrder(old(entitlements), order)
    {
      for i := 0 to |entitlements|
        invariant |entitlements| == |old(entitlements)|
        invariant forall k | 0 <= k < |entitlements| ::
                    entitlements[k] == if k < i then RevokeOrder(old(entitlements), order)[k] else old(entitlements)[k]
      {
        if entitlements[i].source == Payment(order) && !entitlements[i].revoked {
          entitlements := entitlements[i := entitlements[i].(revoked := true)];
        }
      }
    }

    method Revoke(id: nat) returns (r: Result)
      modifies this
      ensures (Tables(), r) == RevokeTx(old(Tables()), id)
    {
      if id >= |entitlements| { return NotFound; }
      entitlements := entitlements[id := entitlements[id].(revoked := true)];
      return Changed(false);
    }

    method Meetings(id: nat, used: int) returns (r: Result)
      modifies this
      ensures (Tables(), r) == MeetingsTx(old(Tables()), id, used)
    {
      if id >= |entitlements| { return NotFound; }
      if used < 0 || used > entitlements[id].meetings { return Invalid; }
      entitlements := entitlements[id := entitlements[id].(used := used)];
      return Changed(false);
    }

    /** The entitlement that counts now: the earliest that is live. */
    method Snapshot(user: Uuid, now: nat) returns (active: Option<nat>)
      ensures active.Some? ==> active.value < |entitlements| && LiveAt(entitlements[active.value], user, now)
      ensures active.Some? ==> forall i | 0 <= i < |entitlements| && LiveAt(entitlements[i], user, now) ::
                entitlements[active.value].starts <= entitlements[i].starts
      ensures active.None? ==> forall i | 0 <= i < |entitlements| :: !LiveAt(entitlements[i], user, now)
    {
      active := None;
      for i := 0 to |entitlements|
        invariant active.Some? ==> active.value < i && LiveAt(entitlements[active.value], user, now)
        invariant active.Some? ==> forall k | 0 <= k < i && LiveAt(entitlements[k], user, now) ::
                    entitlements[active.value].starts <= entitlements[k].starts
        invariant active.None? ==> forall k | 0 <= k < i :: !LiveAt(entitlements[k], user, now)
      {
        if LiveAt(entitlements[i], user, now) && (active.None? || entitlements[i].starts < entitlements[active.value].starts) {
          active := Some(i);
        }
      }
    }
  }
}
