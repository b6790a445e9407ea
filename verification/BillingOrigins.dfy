/** Which webhooks the subscriptions come from: nobody has access that no webhook gave. */
module BillingOrigins {
  import opened Wrappers
  import opened Text
  import opened Billing
  import opened BillingEffects

  predicate IsOfShop(c: Config, w: Webhook) {
    Decimal(w.attributes.storeId) == c.storeId && w.attributes.testMode == c.testMode
  }

  /** A payment of the subscription that left its row in this state. */
  predicate IsPaidBy(c: Config, a: Arrival, id: string, row: Subscription) {
    var w := a.event.webhook;
    && IsOfShop(c, w) && Decimal(w.attributes.subscriptionId) == id
    && (|| (w.kind.PaymentFailed? && row.status.PastDue? && row.accessUntil == Some(PeriodEndOrNow(row, a.at) + c.grace))
        || (w.kind.PaymentRecovered? && row.status.Active? && row.accessUntil.Some?
            && row.accessUntil.value >= PeriodEndOrNow(row, a.at)))
  }

  /** Arrival i told of the subscription what its row says; status and access are the event's, too, or
      those of a later payment. */
  ghost predicate IsSource(c: Config, arrivals: seq<Arrival>, i: nat, id: string, row: Subscription) {
    i < |arrivals| &&
    var (w, at) := (arrivals[i].event.webhook, arrivals[i].at);
    && IsOfShop(c, w) && IsSubscriptionEvent(w) && w.dataType == "subscriptions" && w.dataId == id
    && (w.user.Some? ==> row.user == w.user.value) && Identifies(c, w, at, row)
    && (HasAccessOf(c, w, at, row) || exists j :: i < j < |arrivals| && IsPaidBy(c, arrivals[j], id, row))
  }

  /** Arrival i is a paid order of the plan that was granted provisional access at its time. */
  ghost predicate IsGrant(c: Config, arrivals: seq<Arrival>, i: nat, order: string, row: Subscription) {
    i < |arrivals| &&
    var (w, at) := (arrivals[i].event.webhook, arrivals[i].at);
    && IsOfShop(c, w) && w.kind.OrderCreated? && w.dataType == "orders" && w.dataId == order
    && w.attributes.status == "paid" && Decimal(w.attributes.firstItemVariantId) == c.variantId
    && (w.user.Some? ==> row.user == w.user.value) && IsProvisional(w, at, row)
  }

  ghost predicate AllHaveOrigins(c: Config, arrivals: seq<Arrival>, t: Tables) {
    && (forall id | id in t.confirmed :: exists i: nat :: IsSource(c, arrivals, i, id, t.confirmed[id]))
    && (forall o | o in t.provisional :: exists i: nat :: IsGrant(c, arrivals, i, o, t.provisional[o]))
  }

  lemma OriginStays(c: Config, arrivals: seq<Arrival>, a: Arrival, i: nat, id: string, row: Subscription)
    ensures IsSource(c, arrivals, i, id, row) ==> IsSource(c, arrivals + [a], i, id, row)
    ensures IsGrant(c, arrivals, i, id, row) ==> IsGrant(c, arrivals + [a], i, id, row)
  {
    var more := arrivals + [a];
    assert i < |arrivals| ==> more[i] == arrivals[i];
    if IsSource(c, arrivals, i, id, row) && !HasAccessOf(c, arrivals[i].event.webhook, arrivals[i].at, row) {
      var j :| i < j < |arrivals| && IsPaidBy(c, arrivals[j], id, row);
      assert more[j] == arrivals[j];
    }
  }

  /** A row that an event leaves alone keeps its origin. */
  lemma KeptRowsHaveOrigins(c: Config, arrivals: seq<Arrival>, t: Tables, a: Arrival)
    requires AllHaveOrigins(c, arrivals, t)
    ensures AllHaveOrigins(c, arrivals + [a], t)
  {
    forall id | id in t.confirmed ensures exists i: nat :: IsSource(c, arrivals + [a], i, id, t.confirmed[id]) {
      var i: nat :| IsSource(c, arrivals, i, id, t.confirmed[id]);
      OriginStays(c, arrivals, a, i, id, t.confirmed[id]);
    }
    forall o | o in t.provisional ensures exists i: nat :: IsGrant(c, arrivals + [a], i, o, t.provisional[o]) {
      var i: nat :| IsGrant(c, arrivals, i, o, t.provisional[o]);
      OriginStays(c, arrivals, a, i, o, t.provisional[o]);
    }
  }

  lemma SourceOf(c: Config, arrivals: seq<Arrival>, t: Tables, id: string) returns (i: nat)
    requires AllHaveOrigins(c, arrivals, t) && id in t.confirmed
    ensures IsSource(c, arrivals, i, id, t.confirmed[id])
  {
    i :| IsSource(c, arrivals, i, id, t.confirmed[id]);
  }

  lemma WrittenRowHasOrigin(c: Config, arrivals: seq<Arrival>, t: Tables, t': Tables, id: string)
    requires AllHaveOrigins(c, arrivals, t)
    requires t'.confirmed.Keys == t.confirmed.Keys + {id}
    requires forall other | other in t.confirmed && other != id :: t'.confirmed[other] == t.confirmed[other]
    requires forall o | o in t'.provisional :: o in t.provisional && t'.provisional[o] == t.provisional[o]
    requires exists i: nat :: IsSource(c, arrivals, i, id, t'.confirmed[id])
    ensures AllHaveOrigins(c, arrivals, t')
  {
    forall other | other in t'.confirmed && other != id
      ensures exists i: nat :: IsSource(c, arrivals, i, other, t'.confirmed[other])
    {
      var i := SourceOf(c, arrivals, t, other);
    }
  }

  lemma GrantedRowHasOrigin(c: Config, arrivals: seq<Arrival>, t: Tables, t': Tables, order: string, row: Subscription, i: nat)
    requires AllHaveOrigins(c, arrivals, t) && t'.confirmed == t.confirmed
    requires t'.provisional == t.provisional[order := row] && IsGrant(c, arrivals, i, order, row)
    ensures AllHaveOrigins(c, arrivals, t')
  {}

  lemma SubscriptionOriginates(c: Config, arrivals: seq<Arrival>, t: Tables, a: Arrival, t': Tables, final: FinalStatus)
    requires AllHaveOrigins(c, arrivals + [a], t) && InScope(c, a.event.webhook) && IsSubscriptionEvent(a.event.webhook)
    requires SubscriptionEffect(c, t, a.event.webhook, a.at, t', final)
    ensures AllHaveOrigins(c, arrivals + [a], t')
  {
    var more, id := arrivals + [a], a.event.webhook.dataId;
    if final.Processed? {
      assert more[|arrivals|] == a;
      assert IsSource(c, more, |arrivals|, id, t'.confirmed[id]);
      WrittenRowHasOrigin(c, more, t, t', id);
    }
  }

  lemma OrderOriginates(c: Config, arrivals: seq<Arrival>, t: Tables, a: Arrival, user: UserId, t': Tables)
    requires AllHaveOrigins(c, arrivals + [a], t) && InScope(c, a.event.webhook) && a.event.webhook.kind.OrderCreated?
    requires IsUserOf(t, a.event.webhook, user) && OrderEffect(t, a.event, a.at, user, t')
    ensures AllHaveOrigins(c, arrivals + [a], t')
  {
    var more, order := arrivals + [a], a.event.webhook.dataId;
    if !OrderHasRow(t, order) {
      var row :| t'.provisional == t.provisional[order := row] && row.user == user && IsProvisional(a.event.webhook, a.at, row);
      assert more[|arrivals|] == a;
      GrantedRowHasOrigin(c, more, t, t', order, row, |arrivals|);
    }
  }

  lemma PaidRowHasOrigin(c: Config, arrivals: seq<Arrival>, a: Arrival, i: nat, id: string, was: Subscription, row: Subscription)
    requires InScope(c, a.event.webhook) && IsPayment(a.event.webhook) && Decimal(a.event.webhook.attributes.subscriptionId) == id
    requires IsSource(c, arrivals, i, id, was) && IsAfterPayment(c, a.event.webhook.kind, was, a.at, row)
    ensures IsSource(c, arrivals + [a], i, id, row)
  {
    var more := arrivals + [a];
    OriginStays(c, arrivals, a, i, id, was);
    if !a.event.webhook.kind.PaymentSuccess? {
      assert more[i] == arrivals[i] && more[|arrivals|] == a && IsPaidBy(c, a, id, row);
    }
  }

  lemma PaymentSource(c: Config, arrivals: seq<Arrival>, t: Tables, a: Arrival, id: string, row: Subscription)
    requires AllHaveOrigins(c, arrivals, t) && InScope(c, a.event.webhook) && IsPayment(a.event.webhook)
    requires id == Decimal(a.event.webhook.attributes.subscriptionId) && id in t.confirmed
    requires IsAfterPayment(c, a.event.webhook.kind, t.confirmed[id], a.at, row)
    ensures exists i: nat :: IsSource(c, arrivals + [a], i, id, row)
  {
    var i := SourceOf(c, arrivals, t, id);
    PaidRowHasOrigin(c, arrivals, a, i, id, t.confirmed[id], row);
  }

  lemma PaymentOriginates(c: Config, more: seq<Arrival>, t: Tables, event: Body, now: int, id: string, t': Tables)
    requires AllHaveOrigins(c, more, t) && PaymentEffect(c, t, event, now, id, t')
    requires exists i: nat :: IsSource(c, more, i, id, t'.confirmed[id])
    ensures AllHaveOrigins(c, more, t')
  {
    assert t'.confirmed.Keys == t.confirmed.Keys + {id};
    WrittenRowHasOrigin(c, more, t, t', id);
  }

  lemma EventOriginates(c: Config, arrivals: seq<Arrival>, t: Tables, a: Arrival)
    requires AllHaveOrigins(c, arrivals, t)
    ensures AllHaveOrigins(c, arrivals + [a], Apply(c, t, a))
  {
    KeptRowsHaveOrigins(c, arrivals, t, a);
    var w, e := a.event.webhook, Process(c, t, a.event, a.at);
    if e.Ok? {
      if w.kind.OrderCreated? {
        OrderLaw(c, t, a.event, a.at);
        var user :| IsUserOf(t, w, user) && OrderEffect(t, a.event, a.at, user, e.value.0);
        OrderOriginates(c, arrivals, t, a, user, e.value.0);
      } else if IsPayment(w) {
        PaymentLaw(c, t, a.event, a.at);
        var id := Decimal(w.attributes.subscriptionId);
        PaymentSource(c, arrivals, t, a, id, e.value.0.confirmed[id]);
        PaymentOriginates(c, arrivals + [a], t, a.event, a.at, id, e.value.0);
      } else {
        SubscriptionLaw(c, t, a.event, a.at);
        SubscriptionOriginates(c, arrivals, t, a, e.value.0, e.value.1);
      }
    }
  }

  /**
   Whatever arrives, in whatever order: every subscription says what an event of the shop told of it,
   its plan, status and access included, up to the payments since; and every provisional row was
   granted to a paid order of the plan, for a quarter of an hour.
   */
  lemma {:induction false} RowsHaveOrigins(c: Config, t: Tables, arrivals: seq<Arrival>)
    requires t.confirmed == map[] && t.provisional == map[]
    ensures AllHaveOrigins(c, arrivals, Run(c, t, arrivals))
  {
    if |arrivals| > 0 {
      var before, a := arrivals[..|arrivals| - 1], arrivals[|arrivals| - 1];
      RowsHaveOrigins(c, t, before);
      assert before + [a] == arrivals;
      EventOriginates(c, before, Run(c, t, before), a);
    }
  }
}
