/**
 The business effect of a billing webhook on orders, subscriptions and the notification
 outbox. Processing is one transaction: it yields new tables or an error.
 */
module Billing {
  import opened Wrappers
  import opened Text

  const PROVISIONAL_ACCESS: int := 15 * 60 * 1_000_000_000

  datatype Config = Config(storeId: string, variantId: string, testMode: bool, grace: nat)

  // ---------- Webhooks ----------

  datatype Kind =
    | OrderCreated
    | PaymentFailed | PaymentRecovered | PaymentSuccess
    | SubscriptionCreated
    | SubscriptionChanged  // updated, cancelled, resumed, expired, paused and unpaused
    | Unsupported

  /** A date that is missing or does not parse is None. */
  datatype Attributes = Attributes(
    storeId: int, customerId: int, orderId: int, subscriptionId: int, variantId: int,
    status: string, cancelled: bool,
    renewsAt: Option<int>, endsAt: Option<int>, createdAt: Option<int>, updatedAt: Option<int>,
    testMode: bool, firstItemVariantId: int)

  type UserId = int

  datatype Webhook = Webhook(kind: Kind, user: Option<UserId>, dataType: string, dataId: string, attributes: Attributes)

  /** A signed request body: its text, and the webhook it decodes to. Its hash, taken as
      injective, is the event id, so the body itself stands for the event id. */
  datatype Body = Body(text: string, webhook: Webhook)

  predicate IsPayment(w: Webhook) {
    w.kind.PaymentFailed? || w.kind.PaymentRecovered? || w.kind.PaymentSuccess?
  }

  predicate IsSubscriptionEvent(w: Webhook) {
    w.kind.SubscriptionCreated? || w.kind.SubscriptionChanged?
  }

  // ---------- Tables ----------

  datatype Plan = Pro | Free

  datatype Status = Trialing | Active | PastDue | Canceled | Expired

  datatype Order = Order(user: UserId, customer: string, variant: string, providerStatus: string, updatedAt: Option<int>)

  datatype Subscription = Subscription(
    user: UserId, customer: string, order: Option<string>, variant: string, providerStatus: string, updatedAt: Option<int>,
    plan: Plan, status: Status, periodStart: Option<int>, periodEnd: Option<int>, cancelAtPeriodEnd: bool,
    accessUntil: Option<int>, createdAt: int)

  /** Rows with a provider subscription id are keyed by it; the others are provisional
      and keyed by their order. */
  datatype Tables = Tables(
    users: set<UserId>, orders: map<string, Order>,
    confirmed: map<string, Subscription>, provisional: map<string, Subscription>,
    outbox: Outbox)

  /** The user to notify of an event; the type of the notification follows from the event. */
  type Outbox = map<Body, UserId>

  /** A notification that is already there is kept. */
  function Notified(outbox: Outbox, event: Body, user: UserId): Outbox {
    if event in outbox then outbox else outbox[event := user]
  }

  datatype ProcessError = Invalid | Transient

  datatype FinalStatus = Processed | Ignored

  type Effect = Result<(Tables, FinalStatus), ProcessError>

  // ---------- Validation ----------

  predicate InScope(c: Config, w: Webhook) {
    var a := w.attributes;
    && Decimal(a.storeId) == c.storeId && a.testMode == c.testMode
    && match w.kind
       case OrderCreated =>
         w.dataType == "orders" && a.status == "paid" && Decimal(a.firstItemVariantId) == c.variantId
       case PaymentFailed => w.dataType == "subscription-invoices" && a.subscriptionId > 0
       case PaymentRecovered => w.dataType == "subscription-invoices" && a.subscriptionId > 0
       case PaymentSuccess => w.dataType == "subscription-invoices" && a.subscriptionId > 0
       case SubscriptionCreated => w.dataType == "subscriptions" && Decimal(a.variantId) == c.variantId
       case SubscriptionChanged => w.dataType == "subscriptions" && a.variantId > 0
       case Unsupported => false
  }

  /** A named user must exist; otherwise the user of the subscription with the data id is taken. */
  function ResolveUser(t: Tables, w: Webhook): Option<UserId> {
    if w.user.Some? then (if w.user.value in t.users then w.user else None)
    else if w.dataId in t.confirmed then Some(t.confirmed[w.dataId].user)
    else None
  }

  function OrElse(a: Option<int>, b: Option<int>): Option<int> {
    if a.Some? then a else b
  }

  function Max(a: int, b: int): int {
    if a >= b then a else b
  }

  /** The status and the end of access that a provider status means; None if it is rejected. */
  function ResolveAccess(a: Attributes, updatedAt: int, grace: nat): Option<(Status, int)> {
    var status := ToLower(TrimSpace(a.status));
    var dated := (s: Status, until: Option<int>) => if until.Some? then Some((s, until.value)) else None;
    if status == "on_trial" then dated(Trialing, a.renewsAt)
    else if status == "active" then dated(Active, a.renewsAt)
    else if status == "paused" || status == "past_due" || status == "unpaid" then
      Some((PastDue, (if a.renewsAt.Some? then Max(a.renewsAt.value, updatedAt) else updatedAt) + grace))
    else if status == "cancelled" then dated(Canceled, OrElse(a.endsAt, a.renewsAt))
    else if status == "expired" then dated(Expired, OrElse(a.endsAt, Some(updatedAt)))
    else None
  }

  /** The stored timestamp is newer than the proposed one, so that the row is kept. */
  predicate Newer(stored: Option<int>, proposed: Option<int>) {
    stored.Some? && proposed.Some? && proposed.value < stored.value
  }

  // ---------- Constraints ----------

  /** subscriptions_period_order */
  predicate PeriodInOrder(s: Subscription) {
    s.periodStart.Some? && s.periodEnd.Some? ==> s.periodStart.value <= s.periodEnd.value
  }

  /** Some row other than that of `except` has the order. */
  predicate OrderTaken(t: Tables, order: string, except: Option<string>) {
    order in t.provisional || exists id | id in t.confirmed :: Some(id) != except && t.confirmed[id].order == Some(order)
  }

  // ---------- Subscription events ----------

  /** The row a subscription event proposes. */
  function ProposedRow(c: Config, w: Webhook, user: UserId, updatedAt: int, access: (Status, int), now: int): Subscription {
    var a := w.attributes;
    var moved := Decimal(a.variantId) != c.variantId;
    var status := if moved then Expired else access.0;
    Subscription(
      user, Decimal(a.customerId), if a.orderId > 0 then Some(Decimal(a.orderId)) else None, Decimal(a.variantId),
      a.status, Some(updatedAt), if moved then Free else Pro, status, a.createdAt, a.renewsAt,
      a.cancelled || status == Canceled, Some(if moved then updatedAt else access.1), now)
  }

  function WithoutProvisional(t: Tables, a: Attributes): Tables {
    if a.orderId > 0 then t.(provisional := t.provisional - {Decimal(a.orderId)}) else t
  }

  function UpsertSubscription(t: Tables, id: string, row: Subscription): Effect {
    var free := row.order.None? || !OrderTaken(t, row.order.value, Some(id));
    if !PeriodInOrder(row) then Err(Transient)
    else if id !in t.confirmed then
      if free then Ok((t.(confirmed := t.confirmed[id := row]), Processed)) else Err(Transient)
    else
      var stored := t.confirmed[id];
      if Newer(stored.updatedAt, row.updatedAt) then Ok((t, Ignored))
      else
        var row' := row.(periodStart := OrElse(row.periodStart, stored.periodStart), createdAt := stored.createdAt);
        if free && PeriodInOrder(row') then Ok((t.(confirmed := t.confirmed[id := row']), Processed)) else Err(Transient)
  }

  function ProcessSubscription(c: Config, t: Tables, w: Webhook, now: int): Effect {
    var user := ResolveUser(t, w);
    if user.None? then Err(Invalid)
    else
      var updatedAt := OrElse(w.attributes.updatedAt, Some(now)).value;
      var access := ResolveAccess(w.attributes, updatedAt, c.grace);
      if access.None? then Err(Invalid)
      else
        var row := ProposedRow(c, w, user.value, updatedAt, access.value, now);
        UpsertSubscription(WithoutProvisional(t, w.attributes), w.dataId, row)
  }

  // ---------- Order events ----------

  function ProvisionalRow(w: Webhook, user: UserId, updatedAt: int, now: int): Subscription {
    Subscription(
      user, Decimal(w.attributes.customerId), Some(w.dataId), Decimal(w.attributes.firstItemVariantId),
      "order_created", Some(updatedAt), Pro, Active, Some(now), Some(now + PROVISIONAL_ACCESS), false,
      Some(now + PROVISIONAL_ACCESS), now)
  }

  function UpsertOrder(t: Tables, id: string, row: Order): Tables {
    if id in t.orders && Newer(t.orders[id].updatedAt, row.updatedAt) then t else t.(orders := t.orders[id := row])
  }

  function ProcessOrder(t: Tables, event: Body, now: int): Effect {
    var w := event.webhook;
    var user := ResolveUser(t, w);
    if user.None? then Err(Invalid)
    else
      var a := w.attributes;
      var updatedAt := OrElse(OrElse(a.updatedAt, a.createdAt), Some(now)).value;
      var t1 := UpsertOrder(t, w.dataId,
        Order(user.value, Decimal(a.customerId), Decimal(a.firstItemVariantId), a.status, Some(updatedAt)));
      var t2 := if OrderTaken(t1, w.dataId, None) then t1
                else t1.(provisional := t1.provisional[w.dataId := ProvisionalRow(w, user.value, updatedAt, now)]);
      Ok((t2.(outbox := Notified(t2.outbox, event, user.value)), Processed))
  }

  // ---------- Payment events ----------

  function AfterPayment(c: Config, s: Subscription, kind: Kind, now: int): Subscription {
    var end := Max(OrElse(s.periodEnd, Some(now)).value, now);
    match kind
    case PaymentFailed => s.(providerStatus := "past_due", status := PastDue, accessUntil := Some(end + c.grace))
    case PaymentRecovered =>
      s.(providerStatus := "active", status := Active,
         accessUntil := Some(Max(OrElse(s.accessUntil, Some(now)).value, end)))
    case _ => s
  }

  function ProcessPayment(c: Config, t: Tables, event: Body, now: int): Effect {
    var id := Decimal(event.webhook.attributes.subscriptionId);
    if id !in t.confirmed then Err(Transient)
    else
      var s := t.confirmed[id];
      Ok((t.(confirmed := t.confirmed[id := AfterPayment(c, s, event.webhook.kind, now)],
             outbox := Notified(t.outbox, event, s.user)), Processed))
  }

  // ---------- One event ----------

  function Process(c: Config, t: Tables, event: Body, now: int): Effect {
    var w := event.webhook;
    if !InScope(c, w) then Err(Invalid)
    else if w.kind.OrderCreated? then ProcessOrder(t, event, now)
    else if IsPayment(w) then ProcessPayment(c, t, event, now)
    else ProcessSubscription(c, t, w, now)
  }

  // ---------- Runs ----------

  datatype Arrival = Arrival(event: Body, at: int)

  /** A failed transaction has no effect. */
  function Apply(c: Config, t: Tables, a: Arrival): Tables {
    var effect := Process(c, t, a.event, a.at);
    if effect.Ok? then effect.value.0 else t
  }

  function Run(c: Config, t: Tables, arrivals: seq<Arrival>): Tables {
    if |arrivals| == 0 then t
    else Apply(c, Run(c, t, arrivals[..|arrivals| - 1]), arrivals[|arrivals| - 1])
  }
}
