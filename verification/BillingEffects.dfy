/** What one webhook does to the tables, field by field, and which webhooks the rows come from. */
module BillingEffects {
  import opened Wrappers
  import opened Text
  import opened Billing

  // ---------- What a provider status gives ----------

  ghost predicate IsPastDue(status: string) {
    Spells(status, "paused") || Spells(status, "past_due") || Spells(status, "unpaid")
  }

  /** The provider status is known, and the date it needs is there. */
  ghost predicate IsUnderstood(a: Attributes) {
    || ((Spells(a.status, "on_trial") || Spells(a.status, "active")) && a.renewsAt.Some?)
    || IsPastDue(a.status)
    || (Spells(a.status, "cancelled") && (a.endsAt.Some? || a.renewsAt.Some?))
    || Spells(a.status, "expired")
  }

  /** One grace period after the later of the two dates. */
  predicate IsEndOfGrace(until: Option<int>, date: int, other: Option<int>, grace: nat) {
    && until.Some? && until.value >= date + grace && (other.Some? ==> until.value >= other.value + grace)
    && (until.value == date + grace || (other.Some? && until.value == other.value + grace))
  }

  /** The access that a subscription to the plan has. */
  ghost predicate GivesAccess(a: Attributes, updatedAt: int, grace: nat, status: Status, until: Option<int>) {
    && (status.Trialing? <==> Spells(a.status, "on_trial"))
    && (status.Active? <==> Spells(a.status, "active"))
    && (status.PastDue? <==> IsPastDue(a.status))
    && (status.Canceled? <==> Spells(a.status, "cancelled"))
    && (status.Expired? <==> Spells(a.status, "expired"))
    && (status.Trialing? || status.Active? ==> until.Some? && until == a.renewsAt)
    && (status.PastDue? ==> IsEndOfGrace(until, updatedAt, a.renewsAt, grace))
    && (status.Canceled? ==> until.Some? && until == if a.endsAt.Some? then a.endsAt else a.renewsAt)
    && (status.Expired? ==> until == if a.endsAt.Some? then a.endsAt else Some(updatedAt))
  }

  const STATUS_WORDS: seq<string> := ["on_trial", "active", "paused", "past_due", "unpaid", "cancelled", "expired"]

  lemma StatusWordsAreRead(status: string)
    ensures forall word | word in STATUS_WORDS :: ToLower(TrimSpace(status)) == word <==> Spells(status, word)
  {
    forall word | word in STATUS_WORDS ensures ToLower(TrimSpace(status)) == word <==> Spells(status, word) {
      NormalisedIffSpells(status, word);
    }
  }

  lemma AccessIsResolved(a: Attributes, updatedAt: int, grace: nat)
    ensures var access := ResolveAccess(a, updatedAt, grace);
            && (access.Some? <==> IsUnderstood(a))
            && (access.Some? ==> GivesAccess(a, updatedAt, grace, access.value.0, Some(access.value.1)))
  {
    StatusWordsAreRead(a.status);
    assert forall word | word in STATUS_WORDS :: Spells(a.status, word) ==> ToLower(TrimSpace(a.status)) == word;
    assert "on_trial" in STATUS_WORDS && "active" in STATUS_WORDS && "paused" in STATUS_WORDS && "past_due" in STATUS_WORDS
        && "unpaid" in STATUS_WORDS && "cancelled" in STATUS_WORDS && "expired" in STATUS_WORDS;
    WordsDiffer();
  }

  lemma WordsDiffer()
    ensures forall i, j | 0 <= i < j < |STATUS_WORDS| :: STATUS_WORDS[i] != STATUS_WORDS[j]
  {
    forall i, j | 0 <= i < j < |STATUS_WORDS| ensures STATUS_WORDS[i] != STATUS_WORDS[j] {
      assert |STATUS_WORDS[i]| != |STATUS_WORDS[j]| || STATUS_WORDS[i][0] != STATUS_WORDS[j][0];
    }
  }

  // ---------- Subscription events ----------

  /** The event is about this user: the one it names, or else the one of the stored subscription. */
  predicate IsUserOf(t: Tables, w: Webhook, user: UserId) {
    if w.user.Some? then user == w.user.value && user in t.users
    else w.dataId in t.confirmed && user == t.confirmed[w.dataId].user
  }

  predicate HasUser(t: Tables, w: Webhook) {
    if w.user.Some? then w.user.value in t.users else w.dataId in t.confirmed
  }

  /** The stored row was updated by the provider after the event. */
  predicate IsOutdated(t: Tables, w: Webhook, now: int) {
    && w.dataId in t.confirmed && t.confirmed[w.dataId].updatedAt.Some?
    && t.confirmed[w.dataId].updatedAt.value > (if w.attributes.updatedAt.Some? then w.attributes.updatedAt.value else now)
  }

  predicate EndsBeforeStart(start: Option<int>, end: Option<int>) {
    start.Some? && end.Some? && end.value < start.value
  }

  /** Another subscription has the order. */
  ghost predicate OrderIsElsewhere(t: Tables, w: Webhook) {
    w.attributes.orderId > 0 &&
    exists id :: id in t.confirmed && id != w.dataId && t.confirmed[id].order == Some(Decimal(w.attributes.orderId))
  }

  /** A constraint of the table keeps the event out. */
  ghost predicate Conflicts(t: Tables, w: Webhook, now: int) {
    var a := w.attributes;
    || EndsBeforeStart(a.createdAt, a.renewsAt)
    || (!IsOutdated(t, w, now) &&
        (|| OrderIsElsewhere(t, w)
         || (a.createdAt.None? && w.dataId in t.confirmed && EndsBeforeStart(t.confirmed[w.dataId].periodStart, a.renewsAt))))
  }

  /** The row identifies the subscription as the event does. */
  predicate Identifies(c: Config, w: Webhook, at: int, row: Subscription) {
    var a := w.attributes;
    && row.customer == Decimal(a.customerId) && row.variant == Decimal(a.variantId)
    && row.order == (if a.orderId > 0 then Some(Decimal(a.orderId)) else None)
    && row.updatedAt == (if a.updatedAt.Some? then a.updatedAt else Some(at))
    && (row.plan.Pro? <==> Decimal(a.variantId) == c.variantId)
    && row.periodEnd == a.renewsAt
  }

  /** The row gives the access that the event stands for; after a change to another plan there is none left. */
  ghost predicate HasAccessOf(c: Config, w: Webhook, at: int, row: Subscription) {
    var a := w.attributes;
    var updatedAt := if a.updatedAt.Some? then a.updatedAt.value else at;
    && row.providerStatus == a.status
    && (row.cancelAtPeriodEnd <==> a.cancelled || row.status.Canceled?)
    && if Decimal(a.variantId) == c.variantId then GivesAccess(a, updatedAt, c.grace, row.status, row.accessUntil)
       else row.status.Expired? && row.accessUntil == Some(updatedAt)
  }

  /** The tables after a subscription event that was processed. */
  ghost predicate SubscriptionEffect(c: Config, t: Tables, w: Webhook, now: int, t': Tables, final: FinalStatus) {
    && t'.users == t.users && t'.orders == t.orders && t'.outbox == t.outbox
    && t'.provisional == (if w.attributes.orderId > 0 then t.provisional - {Decimal(w.attributes.orderId)} else t.provisional)
    && (final.Ignored? <==> IsOutdated(t, w, now))
    && (final.Ignored? ==> t'.confirmed == t.confirmed)
    && (final.Processed? ==> SubscriptionIsWritten(c, t, w, now, t'))
  }

  ghost predicate SubscriptionIsWritten(c: Config, t: Tables, w: Webhook, now: int, t': Tables) {
    && t'.confirmed.Keys == t.confirmed.Keys + {w.dataId}
    && (forall id | id in t.confirmed && id != w.dataId :: t'.confirmed[id] == t.confirmed[id])
    && var row := t'.confirmed[w.dataId];
       && IsUserOf(t, w, row.user) && Identifies(c, w, now, row) && HasAccessOf(c, w, now, row)
       && row.periodStart == (if w.attributes.createdAt.Some? then w.attributes.createdAt
                              else if w.dataId in t.confirmed then t.confirmed[w.dataId].periodStart else None)
       && row.createdAt == (if w.dataId in t.confirmed then t.confirmed[w.dataId].createdAt else now)
  }

  lemma RowIsProposed(c: Config, t: Tables, w: Webhook, now: int, row: Subscription)
    requires HasUser(t, w) && IsUnderstood(w.attributes)
    requires var updatedAt := OrElse(w.attributes.updatedAt, Some(now)).value;
             var access := ResolveAccess(w.attributes, updatedAt, c.grace);
             access.Some? && row == ProposedRow(c, w, ResolveUser(t, w).value, updatedAt, access.value, now)
    ensures IsUserOf(t, w, row.user) && Identifies(c, w, now, row) && HasAccessOf(c, w, now, row)
    ensures row.periodStart == w.attributes.createdAt && row.createdAt == now
  {
    AccessIsResolved(w.attributes, OrElse(w.attributes.updatedAt, Some(now)).value, c.grace);
  }

  lemma OrderIsTakenElsewhere(t: Tables, w: Webhook, row: Subscription)
    requires row.order == (if w.attributes.orderId > 0 then Some(Decimal(w.attributes.orderId)) else None)
    ensures row.order.Some? && OrderTaken(WithoutProvisional(t, w.attributes), row.order.value, Some(w.dataId))
            <==> OrderIsElsewhere(t, w)
  {}

  /** What the event gives depends neither on the start of the period nor on the age of the row. */
  lemma AccessStays(c: Config, w: Webhook, now: int, row: Subscription, row': Subscription)
    requires Identifies(c, w, now, row) && HasAccessOf(c, w, now, row)
    requires row'.(periodStart := row.periodStart, createdAt := row.createdAt) == row
    ensures Identifies(c, w, now, row') && HasAccessOf(c, w, now, row')
  {}

  lemma UpsertIsRefused(c: Config, t: Tables, w: Webhook, now: int, row: Subscription)
    requires Identifies(c, w, now, row) && row.periodStart == w.attributes.createdAt
    ensures var e := UpsertSubscription(WithoutProvisional(t, w.attributes), w.dataId, row);
            (e.Err? <==> Conflicts(t, w, now)) && (e.Err? ==> e.error == Transient)
  {
    OrderIsTakenElsewhere(t, w, row);
  }

  lemma UpsertIsDone(c: Config, t: Tables, w: Webhook, now: int, row: Subscription)
    requires Identifies(c, w, now, row) && row.periodStart == w.attributes.createdAt && row.createdAt == now
    requires UpsertSubscription(WithoutProvisional(t, w.attributes), w.dataId, row).Ok?
    ensures var (t', final) := UpsertSubscription(WithoutProvisional(t, w.attributes), w.dataId, row).value;
            var stored := w.dataId in t.confirmed;
            var start := if stored then OrElse(row.periodStart, t.confirmed[w.dataId].periodStart) else row.periodStart;
            var createdAt := if stored then t.confirmed[w.dataId].createdAt else now;
            && (final.Ignored? <==> IsOutdated(t, w, now))
            && t' == WithoutProvisional(t, w.attributes).(
                 confirmed := if final.Ignored? then t.confirmed
                              else t.confirmed[w.dataId := row.(periodStart := start, createdAt := createdAt)])
  {}

  lemma RowIsUpserted(c: Config, t: Tables, w: Webhook, now: int, row: Subscription)
    requires IsUserOf(t, w, row.user) && Identifies(c, w, now, row) && HasAccessOf(c, w, now, row)
    requires row.periodStart == w.attributes.createdAt && row.createdAt == now
    ensures var e := UpsertSubscription(WithoutProvisional(t, w.attributes), w.dataId, row);
            && (e.Err? <==> Conflicts(t, w, now)) && (e.Err? ==> e.error == Transient)
            && (e.Ok? ==> SubscriptionEffect(c, t, w, now, e.value.0, e.value.1))
  {
    UpsertIsRefused(c, t, w, now, row);
    var e := UpsertSubscription(WithoutProvisional(t, w.attributes), w.dataId, row);
    if e.Ok? {
      UpsertIsDone(c, t, w, now, row);
      if e.value.1.Processed? {
        WrittenRowTells(c, t, w, now, row, e.value.0);
      }
    }
  }

  lemma WrittenRowTells(c: Config, t: Tables, w: Webhook, now: int, row: Subscription, t': Tables)
    requires IsUserOf(t, w, row.user) && Identifies(c, w, now, row) && HasAccessOf(c, w, now, row)
    requires row.periodStart == w.attributes.createdAt && row.createdAt == now
    requires var stored := w.dataId in t.confirmed;
             var start := if stored then OrElse(row.periodStart, t.confirmed[w.dataId].periodStart) else row.periodStart;
             var createdAt := if stored then t.confirmed[w.dataId].createdAt else now;
             t'.confirmed == t.confirmed[w.dataId := row.(periodStart := start, createdAt := createdAt)]
    ensures SubscriptionIsWritten(c, t, w, now, t')
  {
    AccessStays(c, w, now, row, t'.confirmed[w.dataId]);
  }

  lemma RowIsWritten(c: Config, t: Tables, w: Webhook, now: int)
    requires HasUser(t, w) && IsUnderstood(w.attributes)
    ensures var e := ProcessSubscription(c, t, w, now);
            && (e.Err? <==> Conflicts(t, w, now)) && (e.Err? ==> e.error == Transient)
            && (e.Ok? ==> SubscriptionEffect(c, t, w, now, e.value.0, e.value.1))
  {
    var user, updatedAt := ResolveUser(t, w).value, OrElse(w.attributes.updatedAt, Some(now)).value;
    AccessIsResolved(w.attributes, updatedAt, c.grace);
    var row := ProposedRow(c, w, user, updatedAt, ResolveAccess(w.attributes, updatedAt, c.grace).value, now);
    RowIsProposed(c, t, w, now, row);
    RowIsUpserted(c, t, w, now, row);
  }

  /**
   A subscription event is refused for good iff its user or its status is unknown or the date that the
   status needs is missing, and refused for now iff a constraint of the table is in its way. Otherwise
   it removes the provisional row of its order and, unless it is outdated, leaves the subscription's
   row as it tells; nothing else changes.
   */
  lemma SubscriptionLaw(c: Config, t: Tables, event: Body, now: int)
    requires InScope(c, event.webhook) && IsSubscriptionEvent(event.webhook)
    ensures var (w, e) := (event.webhook, Process(c, t, event, now));
            && (e == Err(Invalid) <==> !HasUser(t, w) || !IsUnderstood(w.attributes))
            && (e == Err(Transient) <==> HasUser(t, w) && IsUnderstood(w.attributes) && Conflicts(t, w, now))
            && (e.Ok? ==> SubscriptionEffect(c, t, w, now, e.value.0, e.value.1))
  {
    var w := event.webhook;
    AccessIsResolved(w.attributes, OrElse(w.attributes.updatedAt, Some(now)).value, c.grace);
    if HasUser(t, w) && IsUnderstood(w.attributes) {
      RowIsWritten(c, t, w, now);
    }
  }

  // ---------- Order events ----------

  /** Some row has the order. */
  ghost predicate OrderHasRow(t: Tables, order: string) {
    order in t.provisional || exists id :: id in t.confirmed && t.confirmed[id].order == Some(order)
  }

  /** The provider's time of an order event; its creation, or now, if there is none. */
  function TimeOf(w: Webhook, now: int): int {
    if w.attributes.updatedAt.Some? then w.attributes.updatedAt.value
    else if w.attributes.createdAt.Some? then w.attributes.createdAt.value else now
  }

  /** The order as the event tells it. */
  predicate IsOrderOf(w: Webhook, now: int, order: Order) {
    var a := w.attributes;
    && order.customer == Decimal(a.customerId) && order.variant == Decimal(a.firstItemVariantId)
    && order.providerStatus == a.status && order.updatedAt == Some(TimeOf(w, now))
  }

  /** A quarter of an hour of the plan. */
  predicate IsProvisional(w: Webhook, now: int, row: Subscription) {
    && row.order == Some(w.dataId) && row.customer == Decimal(w.attributes.customerId)
    && row.variant == Decimal(w.attributes.firstItemVariantId) && row.providerStatus == "order_created"
    && row.plan.Pro? && row.status.Active? && !row.cancelAtPeriodEnd
    && row.periodStart == Some(now) && row.createdAt == now
    && row.periodEnd == row.accessUntil == Some(now + 15 * 60 * 1_000_000_000) && row.updatedAt == Some(TimeOf(w, now))
  }

  /** One notification of the event, for the user; the one that is there stays. */
  predicate IsNotified(outbox: Outbox, outbox': Outbox, event: Body, user: UserId) {
    && outbox'.Keys == outbox.Keys + {event}
    && (forall e | e in outbox :: outbox'[e] == outbox[e])
    && (event !in outbox ==> outbox'[event] == user)
  }

  /** The registered state of the order is newer than the event. */
  predicate KeepsOrder(order: Order, w: Webhook, now: int) {
    order.updatedAt.Some? && order.updatedAt.value > TimeOf(w, now)
  }

  /** The order is registered as the event tells it, unless a newer state is. */
  ghost predicate IsRegistered(orders: map<string, Order>, w: Webhook, now: int, user: UserId, orders': map<string, Order>) {
    && orders'.Keys == orders.Keys + {w.dataId}
    && (forall o | o in orders && o != w.dataId :: orders'[o] == orders[o])
    && (if w.dataId in orders && KeepsOrder(orders[w.dataId], w, now) then orders'[w.dataId] == orders[w.dataId]
        else orders'[w.dataId].user == user && IsOrderOf(w, now, orders'[w.dataId]))
  }

  /** Provisional access is given to the order, and nothing else changes among the provisional rows. */
  ghost predicate IsGranted(provisional: map<string, Subscription>, w: Webhook, now: int, user: UserId,
                            provisional': map<string, Subscription>) {
    exists row :: provisional' == provisional[w.dataId := row] && row.user == user && IsProvisional(w, now, row)
  }

  ghost predicate OrderEffect(t: Tables, event: Body, now: int, user: UserId, t': Tables) {
    && t'.users == t.users && t'.confirmed == t.confirmed
    && IsRegistered(t.orders, event.webhook, now, user, t'.orders)
    && (if OrderHasRow(t, event.webhook.dataId) then t'.provisional == t.provisional
        else IsGranted(t.provisional, event.webhook, now, user, t'.provisional))
    && IsNotified(t.outbox, t'.outbox, event, user)
  }

  lemma OrderIsUpserted(t: Tables, w: Webhook, now: int, user: UserId)
    ensures var (a, updatedAt) := (w.attributes, OrElse(OrElse(w.attributes.updatedAt, w.attributes.createdAt), Some(now)).value);
            var row := Order(user, Decimal(a.customerId), Decimal(a.firstItemVariantId), a.status, Some(updatedAt));
            var t' := UpsertOrder(t, w.dataId, row);
            && IsRegistered(t.orders, w, now, user, t'.orders) && updatedAt == TimeOf(w, now)
            && t'.(orders := t.orders) == t
  {}

  lemma OrderIsWritten(t: Tables, event: Body, now: int, user: UserId)
    requires ResolveUser(t, event.webhook) == Some(user)
    ensures var e := ProcessOrder(t, event, now);
            e.Ok? && e.value.1 == Processed && OrderEffect(t, event, now, user, e.value.0)
  {
    var w, t' := event.webhook, ProcessOrder(t, event, now).value.0;
    var row := ProvisionalRow(w, user, TimeOf(w, now), now);
    OrderIsUpserted(t, w, now, user);
    assert OrderTaken(t, w.dataId, None) <==> OrderHasRow(t, w.dataId);
    assert IsProvisional(w, now, row);
    assert !OrderHasRow(t, w.dataId) ==> t'.provisional == t.provisional[w.dataId := row];
  }

  /**
   An order event is refused, for good, iff its user is unknown. Otherwise it registers the order
   unless a newer state of it is registered, gives provisional access iff no row has the order, and
   notifies the user; nothing else changes.
   */
  lemma OrderLaw(c: Config, t: Tables, event: Body, now: int)
    requires InScope(c, event.webhook) && event.webhook.kind.OrderCreated?
    ensures var (w, e) := (event.webhook, Process(c, t, event, now));
            && (e.Err? <==> !HasUser(t, w)) && (e.Err? ==> e.error == Invalid)
            && (e.Ok? ==> e.value.1 == Processed && exists user :: IsUserOf(t, w, user) && OrderEffect(t, event, now, user, e.value.0))
  {
    var w := event.webhook;
    if HasUser(t, w) {
      var user := ResolveUser(t, w).value;
      assert IsUserOf(t, w, user);
      OrderIsWritten(t, event, now, user);
    }
  }

  // ---------- Payment events ----------

  /** The latest of the stored end of the period, if there is one, and now. */
  function PeriodEndOrNow(s: Subscription, now: int): int {
    if s.periodEnd.Some? && s.periodEnd.value > now then s.periodEnd.value else now
  }

  /** What a payment makes of the subscription's row: past due with one grace period of access after the
      period, or active with no access taken away; a successful one leaves it as it is. */
  predicate IsAfterPayment(c: Config, kind: Kind, was: Subscription, now: int, row: Subscription) {
    && row.(providerStatus := was.providerStatus, status := was.status, accessUntil := was.accessUntil) == was
    && (kind.PaymentFailed? ==>
          && row.providerStatus == "past_due" && row.status.PastDue?
          && row.accessUntil == Some(PeriodEndOrNow(was, now) + c.grace))
    && (kind.PaymentRecovered? ==>
          && row.providerStatus == "active" && row.status.Active? && row.accessUntil.Some?
          && row.accessUntil.value >= PeriodEndOrNow(was, now)
          && (was.accessUntil.Some? ==> row.accessUntil.value >= was.accessUntil.value)
          && (row.accessUntil == was.accessUntil || row.accessUntil == Some(PeriodEndOrNow(was, now))))
    && (kind.PaymentSuccess? ==> row == was)
  }

  /**
   A payment is refused, for now, iff its subscription is not known yet. Otherwise it changes the
   subscription's row as its kind says and notifies the subscription's user; nothing else changes.
   */
  lemma PaymentLaw(c: Config, t: Tables, event: Body, now: int)
    requires InScope(c, event.webhook) && IsPayment(event.webhook)
    ensures var (id, e) := (Decimal(event.webhook.attributes.subscriptionId), Process(c, t, event, now));
            && (e.Err? <==> id !in t.confirmed) && (e.Err? ==> e.error == Transient)
            && (e.Ok? ==> e.value.1 == Processed && PaymentEffect(c, t, event, now, id, e.value.0))
  {}

  ghost predicate PaymentEffect(c: Config, t: Tables, event: Body, now: int, id: string, t': Tables) {
    && t'.users == t.users && t'.orders == t.orders && t'.provisional == t.provisional
    && id in t.confirmed && t'.confirmed.Keys == t.confirmed.Keys
    && (forall other | other in t.confirmed && other != id :: t'.confirmed[other] == t.confirmed[other])
    && IsAfterPayment(c, event.webhook.kind, t.confirmed[id], now, t'.confirmed[id])
    && IsNotified(t.outbox, t'.outbox, event, t.confirmed[id].user)
  }
}
