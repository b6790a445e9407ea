/** What every sequence of billing webhooks keeps. */
module BillingTheorems {
  import opened Wrappers
  import opened Text
  import opened Billing

  // ---------- Invariants of the rows ----------

  /** Pro is granted for the configured variant only, and access always has an end. */
  predicate RowSound(c: Config, s: Subscription) {
    (s.plan == Pro <==> s.variant == c.variantId) && s.accessUntil.Some?
  }

  predicate ProvisionalSound(c: Config, order: string, s: Subscription) {
    && RowSound(c, s)
    && s.order == Some(order)
    && s.accessUntil == Some(s.createdAt + PROVISIONAL_ACCESS)
  }

  ghost predicate OneRowPerOrder(t: Tables) {
    && (forall id, id' | id in t.confirmed && id' in t.confirmed && id != id' ::
          t.confirmed[id].order.None? || t.confirmed[id].order != t.confirmed[id'].order)
    && (forall id | id in t.confirmed && t.confirmed[id].order.Some? ::
          t.confirmed[id].order.value !in t.provisional)
  }

  ghost predicate Sound(c: Config, t: Tables) {
    && (forall id | id in t.confirmed :: RowSound(c, t.confirmed[id]))
    && (forall o | o in t.provisional :: ProvisionalSound(c, o, t.provisional[o]))
    && OneRowPerOrder(t)
  }

  lemma ReplacedRowKeepsSound(c: Config, t: Tables, id: string, row: Subscription)
    requires Sound(c, t) && RowSound(c, row)
    requires row.order.Some? ==> !OrderTaken(t, row.order.value, Some(id))
    ensures Sound(c, t.(confirmed := t.confirmed[id := row]))
  {
    var t' := t.(confirmed := t.confirmed[id := row]);
    forall i | i in t'.confirmed && i != id
      ensures t'.confirmed[i] == t.confirmed[i] && (row.order.Some? ==> t'.confirmed[i].order != row.order)
    {}
  }

  lemma UpsertKeepsSound(c: Config, t: Tables, id: string, row: Subscription)
    requires Sound(c, t) && RowSound(c, row)
    ensures var effect := UpsertSubscription(t, id, row);
            effect.Ok? ==> Sound(c, effect.value.0)
  {
    var effect := UpsertSubscription(t, id, row);
    if effect.Ok? && effect.value.0 != t {
      var t' := effect.value.0;
      assert row.order.Some? ==> !OrderTaken(t, row.order.value, Some(id));
      ReplacedRowKeepsSound(c, t, id, t'.confirmed[id]);
    }
  }

  lemma SubscriptionKeepsSound(c: Config, t: Tables, w: Webhook, now: int)
    requires Sound(c, t)
    ensures var effect := ProcessSubscription(c, t, w, now);
            effect.Ok? ==> Sound(c, effect.value.0)
  {
    var user, updatedAt := ResolveUser(t, w), OrElse(w.attributes.updatedAt, Some(now)).value;
    var access := ResolveAccess(w.attributes, updatedAt, c.grace);
    if user.Some? && access.Some? {
      var row := ProposedRow(c, w, user.value, updatedAt, access.value, now);
      var t' := WithoutProvisional(t, w.attributes);
      assert Sound(c, t');
      UpsertKeepsSound(c, t', w.dataId, row);
    }
  }

  lemma OrderKeepsSound(c: Config, t: Tables, event: Body, now: int)
    requires Sound(c, t) && InScope(c, event.webhook) && event.webhook.kind.OrderCreated?
    ensures var effect := ProcessOrder(t, event, now);
            effect.Ok? ==> Sound(c, effect.value.0)
  {
    var effect := ProcessOrder(t, event, now);
    if effect.Ok? {
      var t' := effect.value.0;
      OrderKeepsProvisionalRows(t, event, now);
      assert t'.confirmed == t.confirmed;
      forall o | o in t'.provisional ensures ProvisionalSound(c, o, t'.provisional[o]) {
        assert o in t.provisional ==> t'.provisional[o] == t.provisional[o];
      }
    }
  }

  /** An order event leaves every provisional row as it is, its own included, and grants at most one
      new one, to an order that has no row yet. */
  lemma OrderKeepsProvisionalRows(t: Tables, event: Body, now: int)
    ensures var effect := ProcessOrder(t, event, now);
            effect.Ok? ==>
              var t' := effect.value.0;
              && t'.provisional.Keys == t.provisional.Keys + (if OrderTaken(t, event.webhook.dataId, None) then {} else {event.webhook.dataId})
              && (forall o | o in t.provisional :: t'.provisional[o] == t.provisional[o])
  {}

  lemma PaymentKeepsSound(c: Config, t: Tables, event: Body, now: int)
    requires Sound(c, t)
    ensures var effect := ProcessPayment(c, t, event, now);
            effect.Ok? ==> Sound(c, effect.value.0)
  {
    var id, effect := Decimal(event.webhook.attributes.subscriptionId), ProcessPayment(c, t, event, now);
    if effect.Ok? {
      var t' := effect.value.0;
      assert t'.provisional == t.provisional && t'.confirmed.Keys == t.confirmed.Keys;
      forall i | i in t'.confirmed ensures t'.confirmed[i].order == t.confirmed[i].order && RowSound(c, t'.confirmed[i]) {
        assert RowSound(c, t.confirmed[i]);
      }
    }
  }

  lemma ApplyKeepsSound(c: Config, t: Tables, a: Arrival)
    requires Sound(c, t)
    ensures Sound(c, Apply(c, t, a))
  {
    var w := a.event.webhook;
    if InScope(c, w) {
      if w.kind.OrderCreated? {
        OrderKeepsSound(c, t, a.event, a.at);
      } else if IsPayment(w) {
        PaymentKeepsSound(c, t, a.event, a.at);
      } else {
        SubscriptionKeepsSound(c, t, w, a.at);
      }
    }
  }

  /** Whatever arrives, in whatever order: plans match variants, access always ends, provisional
      access ends 15 minutes after it was granted, and an order has at most one row. */
  lemma {:induction false} RunKeepsSound(c: Config, t: Tables, arrivals: seq<Arrival>)
    requires Sound(c, t)
    ensures Sound(c, Run(c, t, arrivals))
  {
    if |arrivals| > 0 {
      RunKeepsSound(c, t, arrivals[..|arrivals| - 1]);
      ApplyKeepsSound(c, Run(c, t, arrivals[..|arrivals| - 1]), arrivals[|arrivals| - 1]);
    }
  }

  // ---------- Orders and subscriptions ----------

  /** Every event of a subscription names the order that the subscription belongs to. */
  ghost predicate NamesItsOrder(w: Webhook, orderOf: string -> string) {
    IsSubscriptionEvent(w) ==> w.attributes.orderId > 0 && Decimal(w.attributes.orderId) == orderOf(w.dataId)
  }

  ghost predicate HasConfirmed(t: Tables, order: string) {
    exists id :: id in t.confirmed && t.confirmed[id].order == Some(order)
  }

  ghost predicate Linked(t: Tables, orderOf: string -> string) {
    && (forall id | id in t.confirmed :: t.confirmed[id].order == Some(orderOf(id)) && orderOf(id) !in t.provisional)
    && (forall o | o in t.orders :: o in t.provisional || HasConfirmed(t, o))
    && t.provisional.Keys <= t.orders.Keys
  }

  lemma SubscriptionKeepsLinked(c: Config, t: Tables, w: Webhook, now: int, orderOf: string -> string)
    requires Linked(t, orderOf) && IsSubscriptionEvent(w) && NamesItsOrder(w, orderOf)
    ensures var effect := ProcessSubscription(c, t, w, now);
            effect.Ok? ==> Linked(effect.value.0, orderOf)
  {
    var effect := ProcessSubscription(c, t, w, now);
    if effect.Ok? {
      var t' := effect.value.0;
      assert w.dataId in t'.confirmed && t'.confirmed[w.dataId].order == Some(orderOf(w.dataId));
      forall o | o in t'.orders ensures o in t'.provisional || HasConfirmed(t', o) {
        if o !in t.provisional {
          var id :| id in t.confirmed && t.confirmed[id].order == Some(o);
          assert id in t'.confirmed && t'.confirmed[id].order == Some(o);
        }
      }
    }
  }

  lemma OrderKeepsLinked(t: Tables, event: Body, now: int, orderOf: string -> string)
    requires Linked(t, orderOf)
    ensures var effect := ProcessOrder(t, event, now);
            effect.Ok? ==> Linked(effect.value.0, orderOf)
  {
    var effect := ProcessOrder(t, event, now);
    if effect.Ok? {
      var t' := effect.value.0;
      assert t'.confirmed == t.confirmed;
      forall o | o in t'.orders ensures o in t'.provisional || HasConfirmed(t', o) {
        if o in t.orders && o !in t.provisional {
          var id :| id in t.confirmed && t.confirmed[id].order == Some(o);
          assert id in t'.confirmed && t'.confirmed[id].order == Some(o);
        }
      }
    }
  }

  lemma PaymentKeepsLinked(c: Config, t: Tables, event: Body, now: int, orderOf: string -> string)
    requires Linked(t, orderOf)
    ensures var effect := ProcessPayment(c, t, event, now);
            effect.Ok? ==> Linked(effect.value.0, orderOf)
  {
    var effect := ProcessPayment(c, t, event, now);
    if effect.Ok? {
      var t' := effect.value.0;
      forall o | o in t'.orders ensures o in t'.provisional || HasConfirmed(t', o) {
        if o !in t.provisional {
          var id :| id in t.confirmed && t.confirmed[id].order == Some(o);
          assert id in t'.confirmed && t'.confirmed[id].order == Some(o);
        }
      }
    }
  }

  lemma ApplyKeepsLinked(c: Config, t: Tables, a: Arrival, orderOf: string -> string)
    requires Linked(t, orderOf) && NamesItsOrder(a.event.webhook, orderOf)
    ensures Linked(Apply(c, t, a), orderOf)
  {
    var w := a.event.webhook;
    if InScope(c, w) {
      if w.kind.OrderCreated? {
        OrderKeepsLinked(t, a.event, a.at, orderOf);
      } else if IsPayment(w) {
        PaymentKeepsLinked(c, t, a.event, a.at, orderOf);
      } else {
        SubscriptionKeepsLinked(c, t, w, a.at, orderOf);
      }
    }
  }

  lemma {:induction false} RunKeepsLinked(c: Config, t: Tables, arrivals: seq<Arrival>, orderOf: string -> string)
    requires Linked(t, orderOf)
    requires forall i | 0 <= i < |arrivals| :: NamesItsOrder(arrivals[i].event.webhook, orderOf)
    ensures Linked(Run(c, t, arrivals), orderOf)
  {
    if |arrivals| > 0 {
      var n := |arrivals| - 1;
      RunKeepsLinked(c, t, arrivals[..n], orderOf);
      ApplyKeepsLinked(c, Run(c, t, arrivals[..n]), arrivals[n], orderOf);
    }
  }

  /** Once an order was processed it has exactly one row for ever: the provisional one until a
      subscription event of the order is processed, that subscription's row from then on. */
  lemma {:induction false} OrderHasExactlyOneRow(c: Config, t: Tables, arrivals: seq<Arrival>, orderOf: string -> string, order: string)
    requires Sound(c, t) && Linked(t, orderOf)
    requires forall i | 0 <= i < |arrivals| :: NamesItsOrder(arrivals[i].event.webhook, orderOf)
    requires order in Run(c, t, arrivals).orders
    ensures var t' := Run(c, t, arrivals);
            && (order in t'.provisional <==> !HasConfirmed(t', order))
            && (forall id, id' | id in t'.confirmed && id' in t'.confirmed &&
                  t'.confirmed[id].order == Some(order) && t'.confirmed[id'].order == Some(order) :: id == id')
  {
    RunKeepsSound(c, t, arrivals);
    RunKeepsLinked(c, t, arrivals, orderOf);
  }

  /** The arrival grants provisional access to the order. */
  ghost predicate Grants(c: Config, t: Tables, a: Arrival, order: string) {
    order !in t.provisional && order in Apply(c, t, a).provisional
  }

  /** The provisional rows after an event: only an order without a row gets one, and rows are only
      ever removed. */
  lemma ApplyAndProvisionalRows(c: Config, t: Tables, a: Arrival, order: string)
    ensures var t' := Apply(c, t, a);
            && t.orders.Keys <= t'.orders.Keys
            && (order in t.provisional && order in t'.provisional ==> t'.provisional[order] == t.provisional[order])
            && (Grants(c, t, a, order) ==> !OrderTaken(t, order, None))
  {
    var w := a.event.webhook;
    if InScope(c, w) && w.kind.OrderCreated? {
      OrderKeepsProvisionalRows(t, a.event, a.at);
    }
  }

  /** An order that was granted provisional access is never granted it again, in any continuation. */
  lemma GrantIsNotRepeated(c: Config, t: Tables, arrivals: seq<Arrival>, a: Arrival, orderOf: string -> string, order: string)
    requires Linked(t, orderOf) && order in t.orders
    requires forall i | 0 <= i < |arrivals| :: NamesItsOrder(arrivals[i].event.webhook, orderOf)
    ensures !Grants(c, Run(c, t, arrivals), a, order)
  {
    RunKeepsLinked(c, t, arrivals, orderOf);
    RunKeepsOrders(c, t, arrivals);
    var t' := Run(c, t, arrivals);
    ApplyAndProvisionalRows(c, t', a, order);
    if HasConfirmed(t', order) {
      var id :| id in t'.confirmed && t'.confirmed[id].order == Some(order);
      assert OrderTaken(t', order, None);
    }
  }

  lemma {:induction false} RunKeepsOrders(c: Config, t: Tables, arrivals: seq<Arrival>)
    ensures t.orders.Keys <= Run(c, t, arrivals).orders.Keys
  {
    if |arrivals| > 0 {
      RunKeepsOrders(c, t, arrivals[..|arrivals| - 1]);
      ApplyAndProvisionalRows(c, Run(c, t, arrivals[..|arrivals| - 1]), arrivals[|arrivals| - 1], "");
    }
  }

  /** After a grant the order is registered, and linked to its row. */
  lemma GrantRegisters(c: Config, t: Tables, a: Arrival, orderOf: string -> string, order: string)
    requires Linked(t, orderOf) && NamesItsOrder(a.event.webhook, orderOf) && Grants(c, t, a, order)
    ensures Linked(Apply(c, t, a), orderOf) && order in Apply(c, t, a).orders
  {
    ApplyKeepsLinked(c, t, a, orderOf);
  }

  lemma {:induction false} GrantExcludesGrant(c: Config, t: Tables, before: seq<Arrival>, a: Arrival, between: seq<Arrival>, b: Arrival,
                                              orderOf: string -> string, order: string)
    requires Linked(t, orderOf) && NamesItsOrder(a.event.webhook, orderOf)
    requires forall n | 0 <= n < |before| :: NamesItsOrder(before[n].event.webhook, orderOf)
    requires forall n | 0 <= n < |between| :: NamesItsOrder(between[n].event.webhook, orderOf)
    requires Grants(c, Run(c, t, before), a, order)
    ensures !Grants(c, Run(c, t, before + [a] + between), b, order)
  {
    RunKeepsLinked(c, t, before, orderOf);
    GrantRegisters(c, Run(c, t, before), a, orderOf, order);
    assert (before + [a])[..|before|] == before;
    GrantIsNotRepeated(c, Run(c, t, before + [a]), between, b, orderOf, order);
    RunConcat(c, t, before + [a], between);
  }

  /** An order is granted provisional access at most once, whatever arrives and however often. */
  lemma {:induction false} GrantedAtMostOnce(c: Config, t: Tables, arrivals: seq<Arrival>, orderOf: string -> string, order: string,
                                             i: nat, j: nat)
    requires Linked(t, orderOf) && i < j < |arrivals|
    requires forall n | 0 <= n < |arrivals| :: NamesItsOrder(arrivals[n].event.webhook, orderOf)
    ensures !(Grants(c, Run(c, t, arrivals[..i]), arrivals[i], order) && Grants(c, Run(c, t, arrivals[..j]), arrivals[j], order))
  {
    if Grants(c, Run(c, t, arrivals[..i]), arrivals[i], order) {
      GrantExcludesGrant(c, t, arrivals[..i], arrivals[i], arrivals[i + 1..j], arrivals[j], orderOf, order);
      assert arrivals[..i] + [arrivals[i]] + arrivals[i + 1..j] == arrivals[..j];
    }
  }

  /** Provisional access is never extended: as long as an order has its provisional row, in any
      continuation, it is the row that was granted. */
  lemma {:induction false} ProvisionalRowNeverChanges(c: Config, t: Tables, arrivals: seq<Arrival>, orderOf: string -> string, order: string)
    requires Linked(t, orderOf) && order in t.provisional && order in Run(c, t, arrivals).provisional
    requires forall i | 0 <= i < |arrivals| :: NamesItsOrder(arrivals[i].event.webhook, orderOf)
    ensures Run(c, t, arrivals).provisional[order] == t.provisional[order]
  {
    if |arrivals| > 0 {
      var n := |arrivals| - 1;
      var before := Run(c, t, arrivals[..n]);
      ApplyAndProvisionalRows(c, before, arrivals[n], order);
      GrantIsNotRepeated(c, t, arrivals[..n], arrivals[n], orderOf, order);
      ProvisionalRowNeverChanges(c, t, arrivals[..n], orderOf, order);
    }
  }

  lemma {:induction false} RunConcat(c: Config, t: Tables, first: seq<Arrival>, second: seq<Arrival>)
    ensures Run(c, t, first + second) == Run(c, Run(c, t, first), second)
  {
    if |second| == 0 {
      assert first + second == first;
    } else {
      var n := |second| - 1;
      RunConcat(c, t, first, second[..n]);
      assert (first + second)[..|first| + n] == first + second[..n];
    }
  }

  ghost predicate SameUpToCreation(t: Tables, t': Tables) {
    && t.users == t'.users && t.orders == t'.orders && t.provisional == t'.provisional && t.outbox == t'.outbox
    && t.confirmed.Keys == t'.confirmed.Keys
    && (forall id | id in t.confirmed :: t.confirmed[id].(createdAt := 0) == t'.confirmed[id].(createdAt := 0))
  }

  /** The two events of one purchase; both name the user and carry their timestamps. */
  predicate IsPurchase(c: Config, order: Webhook, sub: Webhook) {
    && InScope(c, order) && order.kind.OrderCreated?
    && InScope(c, sub) && IsSubscriptionEvent(sub)
    && sub.attributes.orderId > 0 && Decimal(sub.attributes.orderId) == order.dataId
    && order.user.Some? && order.attributes.updatedAt.Some?
    && sub.user.Some? && sub.attributes.updatedAt.Some?
  }

  /** The two events of one purchase commute, whenever they arrive: one confirmed row, nothing provisional. */
  lemma {:induction false} OrderAndSubscriptionCommute(c: Config, t: Tables, order: Body, sub: Body, n1: int, n2: int, m1: int, m2: int)
    requires IsPurchase(c, order.webhook, sub.webhook)
    requires Process(c, t, order, n1).Ok? && Process(c, t, sub, m1).Ok?
    requires sub.webhook.dataId !in t.confirmed && !OrderTaken(t, order.webhook.dataId, None)
    ensures var orderFirst := Run(c, t, [Arrival(order, n1), Arrival(sub, n2)]);
            var subFirst := Run(c, t, [Arrival(sub, m1), Arrival(order, m2)]);
            && SameUpToCreation(orderFirst, subFirst)
            && sub.webhook.dataId in orderFirst.confirmed && order.webhook.dataId in orderFirst.orders
            && order.webhook.dataId !in orderFirst.provisional
  {
    RunOfTwo(c, t, Arrival(order, n1), Arrival(sub, n2));
    RunOfTwo(c, t, Arrival(sub, m1), Arrival(order, m2));
    OrderFirst(c, t, order, sub, n1, n2, m1);
    SubscriptionFirst(c, t, order, sub, n1, m1, m2);
  }

  lemma OrderFirst(c: Config, t: Tables, order: Body, sub: Body, n1: int, n2: int, m1: int)
    requires IsPurchase(c, order.webhook, sub.webhook)
    requires Process(c, t, order, n1).Ok? && Process(c, t, sub, m1).Ok?
    requires sub.webhook.dataId !in t.confirmed
    ensures var (t1, t2) := (Apply(c, t, Arrival(order, n1)), Apply(c, t, Arrival(sub, m1)));
            var t' := Apply(c, t1, Arrival(sub, n2));
            && order.webhook.dataId in t1.orders && order.webhook.dataId !in t2.provisional
            && sub.webhook.dataId in t2.confirmed && sub.webhook.dataId in t'.confirmed
            && SameUpToCreation(t', t2.(orders := t1.orders, outbox := t1.outbox))
  {
    var o := order.webhook.dataId;
    var t1 := Apply(c, t, Arrival(order, n1));
    OrderEffect(c, t, t.orders, order, n1);
    assert t1.provisional - {o} == t.provisional - {o};
    ApplySubscription(c, t, sub, m1);
    ApplySubscription(c, t1, sub, n2);
    SubscriptionIgnoresOtherTables(c, t, t1, sub.webhook, m1, n2);
  }

  lemma ApplySubscription(c: Config, t: Tables, sub: Body, now: int)
    requires InScope(c, sub.webhook) && IsSubscriptionEvent(sub.webhook)
    ensures Process(c, t, sub, now) == ProcessSubscription(c, t, sub.webhook, now)
  {}

  lemma SubscriptionFirst(c: Config, t: Tables, order: Body, sub: Body, n1: int, m1: int, m2: int)
    requires IsPurchase(c, order.webhook, sub.webhook)
    requires Process(c, t, order, n1).Ok? && Process(c, t, sub, m1).Ok?
    requires sub.webhook.dataId !in t.confirmed
    ensures var (t1, t2) := (Apply(c, t, Arrival(order, n1)), Apply(c, t, Arrival(sub, m1)));
            Apply(c, t2, Arrival(order, m2)) == t2.(orders := t1.orders, outbox := t1.outbox)
  {
    var o := order.webhook.dataId;
    var t1, t2 := Apply(c, t, Arrival(order, n1)), Apply(c, t, Arrival(sub, m1));
    OrderEffect(c, t, t.orders, order, n1);
    SubscriptionEffect(c, t, sub, m1);
    OrderEffect(c, t2, t.orders, order, m2);
  }

  lemma SubscriptionEffect(c: Config, t: Tables, sub: Body, now: int)
    requires InScope(c, sub.webhook) && IsSubscriptionEvent(sub.webhook) && sub.webhook.attributes.orderId > 0
    requires Process(c, t, sub, now).Ok? && sub.webhook.dataId !in t.confirmed
    ensures var t' := Apply(c, t, Arrival(sub, now));
            && t'.users == t.users && t'.orders == t.orders && t'.outbox == t.outbox
            && OrderTaken(t', Decimal(sub.webhook.attributes.orderId), None)
  {
    var t' := Apply(c, t, Arrival(sub, now));
    assert t'.confirmed[sub.webhook.dataId].order == Some(Decimal(sub.webhook.attributes.orderId));
  }

  /** What an order event does, in terms of the orders it finds. */
  lemma OrderEffect(c: Config, t: Tables, orders: map<string, Order>, order: Body, now: int)
    requires InScope(c, order.webhook) && order.webhook.kind.OrderCreated?
    requires order.webhook.user.Some? && order.webhook.user.value in t.users
    requires order.webhook.attributes.updatedAt.Some? && t.orders == orders
    ensures var w, t' := order.webhook, Apply(c, t, Arrival(order, now));
            var row := Order(w.user.value, Decimal(w.attributes.customerId), Decimal(w.attributes.firstItemVariantId),
                             w.attributes.status, w.attributes.updatedAt);
            && t'.users == t.users && t'.confirmed == t.confirmed
            && t'.orders == (if w.dataId in orders && Newer(orders[w.dataId].updatedAt, row.updatedAt)
                             then orders else orders[w.dataId := row])
            && w.dataId in t'.orders
            && t'.outbox == Notified(t.outbox, order, w.user.value)
            && t'.provisional.Keys == t.provisional.Keys + (if OrderTaken(t, w.dataId, None) then {} else {w.dataId})
            && (OrderTaken(t, w.dataId, None) ==> t'.provisional == t.provisional)
            && (forall k | k in t.provisional && k != w.dataId :: t'.provisional[k] == t.provisional[k])
  {}

  lemma RunOfTwo(c: Config, t: Tables, a: Arrival, b: Arrival)
    ensures Run(c, t, [a, b]) == Apply(c, Apply(c, t, a), b)
  {
    assert [a, b][..1] == [a];
    assert [a][..0] == [];
    assert Run(c, t, []) == t;
  }

  predicate IsPurchased(w: Webhook) {
    w.user.Some? && w.attributes.updatedAt.Some? && w.attributes.orderId > 0
  }

  /** The row that the event proposes for a subscription, if it is not rejected outright. */
  function FirstRow(c: Config, w: Webhook, now: int): Option<Subscription>
    requires IsPurchased(w)
  {
    var updatedAt := w.attributes.updatedAt.value;
    var access := ResolveAccess(w.attributes, updatedAt, c.grace);
    if access.Some? then Some(ProposedRow(c, w, w.user.value, updatedAt, access.value, now)) else None
  }

  /** What the first event of a subscription does, and when. */
  lemma FirstSubscriptionEffect(c: Config, t: Tables, w: Webhook, now: int)
    requires IsPurchased(w) && w.dataId !in t.confirmed
    ensures var (e, row) := (ProcessSubscription(c, t, w, now), FirstRow(c, w, now));
            && (e.Ok? <==> w.user.value in t.users && row.Some? && PeriodInOrder(row.value)
                           && forall id | id in t.confirmed :: t.confirmed[id].order != row.value.order)
            && (e.Ok? ==> e.value.0 == WithoutProvisional(t, w.attributes).(confirmed := t.confirmed[w.dataId := row.value]))
  {
    var o := Decimal(w.attributes.orderId);
    assert o !in WithoutProvisional(t, w.attributes).provisional;
  }

  lemma FirstRowsDifferInCreation(c: Config, w: Webhook, now: int, now1: int)
    requires IsPurchased(w)
    ensures FirstRow(c, w, now1).Some? <==> FirstRow(c, w, now).Some?
    ensures FirstRow(c, w, now).Some? ==> FirstRow(c, w, now1) == Some(FirstRow(c, w, now).value.(createdAt := now1))
  {}

  lemma WrittenRowsDifferInCreation(t: Tables, t1: Tables, a: Attributes, id: string, row: Subscription, now1: int)
    requires a.orderId > 0 && t1.users == t.users && t1.confirmed == t.confirmed
    requires t1.provisional - {Decimal(a.orderId)} == t.provisional - {Decimal(a.orderId)}
    ensures var (u, u1) := (WithoutProvisional(t, a), WithoutProvisional(t1, a));
            && Decimal(a.orderId) !in u.provisional
            && SameUpToCreation(u1.(confirmed := t1.confirmed[id := row.(createdAt := now1)]),
                                u.(confirmed := t.confirmed[id := row], orders := t1.orders, outbox := t1.outbox))
  {}

  /** A subscription event does the same to tables that differ only in its provisional row and orders. */
  lemma SubscriptionIgnoresOtherTables(c: Config, t: Tables, t1: Tables, w: Webhook, now: int, now1: int)
    requires IsPurchased(w)
    requires t1.users == t.users && t1.confirmed == t.confirmed && w.dataId !in t.confirmed
    requires t1.provisional - {Decimal(w.attributes.orderId)} == t.provisional - {Decimal(w.attributes.orderId)}
    requires ProcessSubscription(c, t, w, now).Ok?
    ensures var (e, e1) := (ProcessSubscription(c, t, w, now), ProcessSubscription(c, t1, w, now1));
            && e1.Ok?
            && w.dataId in e.value.0.confirmed && w.dataId in e1.value.0.confirmed
            && Decimal(w.attributes.orderId) !in e.value.0.provisional
            && SameUpToCreation(e1.value.0, e.value.0.(orders := t1.orders, outbox := t1.outbox))
  {
    FirstSubscriptionEffect(c, t, w, now);
    FirstSubscriptionEffect(c, t1, w, now1);
    FirstRowsDifferInCreation(c, w, now, now1);
    WrittenRowsDifferInCreation(t, t1, w.attributes, w.dataId, FirstRow(c, w, now).value, now1);
  }
}
