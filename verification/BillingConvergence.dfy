/** To which row a subscription converges, and when that depends on the order of its events. */
module BillingConvergence {
  import opened Wrappers
  import opened Text
  import opened Billing
  import BillingTheorems
  import LatestWins

  // ---------- The row as a register ----------

  /** A subscription event that names the user and carries the provider's timestamp. */
  predicate Dated(w: Webhook) {
    IsSubscriptionEvent(w) && w.user.Some? && w.attributes.updatedAt.Some?
  }

  /** With a creation date as well, it fixes its row on its own. */
  predicate SelfContained(w: Webhook) {
    Dated(w) && w.attributes.createdAt.Some?
  }

  /** The row the event stands for; its bookkeeping creation time is left out. */
  function RowOf(c: Config, w: Webhook): Option<Subscription>
    requires Dated(w)
  {
    var updatedAt := w.attributes.updatedAt.value;
    var access := ResolveAccess(w.attributes, updatedAt, c.grace);
    if access.None? then None else Some(ProposedRow(c, w, w.user.value, updatedAt, access.value, 0))
  }

  predicate Concerns(w: Webhook, id: string) {
    (IsSubscriptionEvent(w) && w.dataId == id) || (IsPayment(w) && Decimal(w.attributes.subscriptionId) == id)
  }

  type Observation = LatestWins.Obs<string, Option<Subscription>>

  function ObservationOf(c: Config, w: Webhook): Observation
    requires SelfContained(w)
  {
    LatestWins.Obs(w.dataId, w.attributes.updatedAt, 0, RowOf(c, w))
  }

  /** The processed events that concern the subscription, one batch each. */
  function Observed(c: Config, t: Tables, arrivals: seq<Arrival>, id: string): seq<seq<Observation>> {
    if |arrivals| == 0 then []
    else
      var before, a := arrivals[..|arrivals| - 1], arrivals[|arrivals| - 1];
      var trail, w := Observed(c, t, before, id), a.event.webhook;
      if Concerns(w, id) && SelfContained(w) && Process(c, Run(c, t, before), a.event, a.at).Ok?
      then trail + [[ObservationOf(c, w)]] else trail
  }

  /** The events that concern the subscription and are processed are all self-contained;
      in particular, there are no payments among them. */
  ghost predicate OnlySelfContained(c: Config, t: Tables, arrivals: seq<Arrival>, id: string) {
    forall i | 0 <= i < |arrivals| && Concerns(arrivals[i].event.webhook, id) &&
               Process(c, Run(c, t, arrivals[..i]), arrivals[i].event, arrivals[i].at).Ok? ::
      SelfContained(arrivals[i].event.webhook)
  }

  /** The subscription's row as a register: what it holds, and since when. */
  function Register(t: Tables, id: string): Option<LatestWins.Stamp<Option<Subscription>>> {
    if id in t.confirmed && t.confirmed[id].updatedAt.Some?
    then Some(LatestWins.Stamp(Some(t.confirmed[id].(createdAt := 0)), t.confirmed[id].updatedAt.value))
    else None
  }

  lemma EventMerges(c: Config, t: Tables, a: Arrival, id: string)
    requires id in t.confirmed ==> t.confirmed[id].updatedAt.Some?
    requires Concerns(a.event.webhook, id) && SelfContained(a.event.webhook) && Process(c, t, a.event, a.at).Ok?
    ensures var w := a.event.webhook;
            var t' := Apply(c, t, a);
            && Register(t', id) == LatestWins.Merge(Register(t, id), LatestWins.Incoming([ObservationOf(c, w)], id))
            && id in t'.confirmed && t'.confirmed[id].updatedAt.Some?
  {
    var o := ObservationOf(c, a.event.webhook);
    assert LatestWins.LatestIn([o], id) == Some(0) by {
      assert LatestWins.Counts([o][0], id);
    }
  }

  lemma OtherEventsKeepRegister(c: Config, t: Tables, a: Arrival, id: string)
    requires !Concerns(a.event.webhook, id) || Process(c, t, a.event, a.at).Err?
    ensures var t' := Apply(c, t, a);
            (id in t'.confirmed <==> id in t.confirmed) && (id in t.confirmed ==> t'.confirmed[id] == t.confirmed[id])
  {
    var w := a.event.webhook;
    if InScope(c, w) && IsSubscriptionEvent(w) && w.dataId != id {
      OtherSubscriptionKeepsRow(c, t, w, a.at, id);
    }
  }

  lemma OtherSubscriptionKeepsRow(c: Config, t: Tables, w: Webhook, now: int, id: string)
    requires w.dataId != id
    ensures var effect := ProcessSubscription(c, t, w, now);
            effect.Ok? ==>
              var t' := effect.value.0;
              (id in t'.confirmed <==> id in t.confirmed) && (id in t.confirmed ==> t'.confirmed[id] == t.confirmed[id])
  {}

  /** A subscription's row is the register of its processed events, wherever these stand
      among the events of other subscriptions and orders. */
  lemma {:induction false} RowIsView(c: Config, t: Tables, arrivals: seq<Arrival>, id: string)
    requires id !in t.confirmed && OnlySelfContained(c, t, arrivals, id)
    ensures Register(Run(c, t, arrivals), id) == LatestWins.View(Observed(c, t, arrivals, id), id)
    ensures id in Run(c, t, arrivals).confirmed ==> Run(c, t, arrivals).confirmed[id].updatedAt.Some?
  {
    if |arrivals| > 0 {
      var n := |arrivals| - 1;
      var before, a := arrivals[..n], arrivals[n];
      forall i | 0 <= i < n ensures before[..i] == arrivals[..i] {}
      assert OnlySelfContained(c, t, before, id);
      RowIsView(c, t, before, id);
      var trail := Observed(c, t, before, id);
      if Concerns(a.event.webhook, id) && Process(c, Run(c, t, before), a.event, a.at).Ok? {
        EventMerges(c, Run(c, t, before), a, id);
        assert (trail + [[ObservationOf(c, a.event.webhook)]])[..|trail|] == trail;
      } else {
        OtherEventsKeepRegister(c, Run(c, t, before), a, id);
      }
    }
  }

  /** The final row is that of a processed event with the greatest provider timestamp. */
  lemma RowIsOfNewestEvent(c: Config, t: Tables, arrivals: seq<Arrival>, id: string)
    requires id !in t.confirmed && OnlySelfContained(c, t, arrivals, id)
    ensures var (t', trail) := (Run(c, t, arrivals), Observed(c, t, arrivals, id));
            && (id !in t'.confirmed <==> LatestWins.Unobserved(trail, id))
            && (id in t'.confirmed ==> exists o ::
                  LatestWins.Newest(trail, id, o) && o.value == Some(t'.confirmed[id].(createdAt := 0)))
  {
    RowIsView(c, t, arrivals, id);
    LatestWins.ViewIsNewest(Observed(c, t, arrivals, id), id);
  }

  /** Two sequences in which the same events of the subscription are processed end with the same
      row, in whatever order and how often they arrive, unless newest events contradict each other. */
  lemma {:induction false} SubscriptionConverges(c: Config, t: Tables, arrivals: seq<Arrival>, arrivals': seq<Arrival>, id: string)
    requires id !in t.confirmed
    requires OnlySelfContained(c, t, arrivals, id) && OnlySelfContained(c, t, arrivals', id)
    requires LatestWins.SameRows(Observed(c, t, arrivals, id), Observed(c, t, arrivals', id))
    requires LatestWins.Unambiguous(Observed(c, t, arrivals, id), id)
    ensures Register(Run(c, t, arrivals), id) == Register(Run(c, t, arrivals'), id)
  {
    RowIsView(c, t, arrivals, id);
    RowIsView(c, t, arrivals', id);
    LatestWins.SameRowsSameView(Observed(c, t, arrivals, id), Observed(c, t, arrivals', id), id);
  }

  // ---------- What is processed ----------

  /** The orders that subscription events name belong to their subscription. */
  ghost predicate RespectsOwner(w: Webhook, ownerOf: string -> string) {
    IsSubscriptionEvent(w) && w.attributes.orderId > 0 ==> ownerOf(Decimal(w.attributes.orderId)) == w.dataId
  }

  ghost predicate AllRespectOwner(arrivals: seq<Arrival>, ownerOf: string -> string) {
    forall i | 0 <= i < |arrivals| :: RespectsOwner(arrivals[i].event.webhook, ownerOf)
  }

  ghost predicate Owned(t: Tables, ownerOf: string -> string) {
    forall id | id in t.confirmed && t.confirmed[id].order.Some? :: ownerOf(t.confirmed[id].order.value) == id
  }

  lemma SubscriptionKeepsOwned(c: Config, t: Tables, w: Webhook, now: int, ownerOf: string -> string)
    requires Owned(t, ownerOf) && IsSubscriptionEvent(w) && RespectsOwner(w, ownerOf)
    ensures var effect := ProcessSubscription(c, t, w, now);
            effect.Ok? ==> Owned(effect.value.0, ownerOf) && effect.value.0.users == t.users
  {}

  lemma ApplyKeepsOwned(c: Config, t: Tables, a: Arrival, ownerOf: string -> string)
    requires Owned(t, ownerOf) && RespectsOwner(a.event.webhook, ownerOf)
    ensures Owned(Apply(c, t, a), ownerOf) && Apply(c, t, a).users == t.users
  {
    var w := a.event.webhook;
    if InScope(c, w) && IsSubscriptionEvent(w) {
      SubscriptionKeepsOwned(c, t, w, a.at, ownerOf);
    }
  }

  /** In scope, dated, for a known user, and with a row that the period constraint accepts. */
  predicate WellFormed(c: Config, users: set<UserId>, w: Webhook) {
    && InScope(c, w) && Dated(w) && w.user.value in users
    && RowOf(c, w).Some? && PeriodInOrder(RowOf(c, w).value)
  }

  function StoredStart(t: Tables, id: string): Option<int> {
    if id in t.confirmed then t.confirmed[id].periodStart else None
  }

  /** An event without a creation date takes the start over; its renewal must not be before it. */
  predicate FitsStart(start: Option<int>, w: Webhook) {
    w.attributes.createdAt.Some? || start.None? || w.attributes.renewsAt.None? || start.value <= w.attributes.renewsAt.value
  }

  predicate Outdated(t: Tables, w: Webhook) {
    w.dataId in t.confirmed && Newer(t.confirmed[w.dataId].updatedAt, w.attributes.updatedAt)
  }

  /** A well-formed event is rejected exactly when it is not outdated, carries no creation date, and
      renews before the start that is stored. */
  lemma WellFormedIsProcessedIff(c: Config, t: Tables, a: Arrival, ownerOf: string -> string)
    requires Owned(t, ownerOf) && RespectsOwner(a.event.webhook, ownerOf) && WellFormed(c, t.users, a.event.webhook)
    ensures Process(c, t, a.event, a.at).Ok?
            <==> Outdated(t, a.event.webhook) || FitsStart(StoredStart(t, a.event.webhook.dataId), a.event.webhook)
  {
    var w := a.event.webhook;
    var row := ProposedRow(c, w, w.user.value, w.attributes.updatedAt.value,
                           ResolveAccess(w.attributes, w.attributes.updatedAt.value, c.grace).value, a.at);
    assert row.(createdAt := 0) == RowOf(c, w).value;
    assert row.order.Some? ==> !OrderTaken(WithoutProvisional(t, w.attributes), row.order.value, Some(w.dataId));
  }

  // ---------- The final row ----------

  /** Some arrival is this event of the subscription. */
  ghost predicate Tells(arrivals: seq<Arrival>, id: string, w: Webhook) {
    Concerns(w, id) && exists i :: 0 <= i < |arrivals| && arrivals[i].event.webhook == w
  }

  /** The events of the subscription are well formed; in particular, there are no payments among them. */
  ghost predicate AllWellFormed(c: Config, users: set<UserId>, arrivals: seq<Arrival>, id: string) {
    forall w | Tells(arrivals, id, w) :: WellFormed(c, users, w)
  }

  predicate NotNewer(c: Config, w: Webhook, newest: Webhook)
    requires Dated(w) && Dated(newest)
  {
    w.attributes.updatedAt.value < newest.attributes.updatedAt.value || RowOf(c, w) == RowOf(c, newest)
  }

  /** The event is newer than every other event of the subscription, up to events that say the same. */
  ghost predicate IsNewestEvent(c: Config, arrivals: seq<Arrival>, id: string, newest: Webhook) {
    && Tells(arrivals, id, newest) && Dated(newest)
    && (forall w | Tells(arrivals, id, w) :: Dated(w) && NotNewer(c, w, newest))
  }

  ghost predicate NoneHasCreationDate(arrivals: seq<Arrival>, id: string) {
    forall w | Tells(arrivals, id, w) :: w.attributes.createdAt.None?
  }

  function FinalRow(t: Tables, id: string): Option<Subscription> {
    if id in t.confirmed then Some(t.confirmed[id].(createdAt := 0)) else None
  }

  /** Before the newest event the stored row is older; from then on it is that event's row, up to
      the period start. The start was some event's creation date. */
  ghost predicate Tracks(c: Config, t: Tables, id: string, newest: Webhook, seen: bool, starts: iset<int>)
    requires Dated(newest) && RowOf(c, newest).Some?
  {
    var row := FinalRow(t, id);
    && (row.Some? ==> row.value.updatedAt.Some? && (row.value.periodStart.Some? ==> row.value.periodStart.value in starts))
    && (seen ==>
          && row.Some? && row.value.(periodStart := None) == RowOf(c, newest).value.(periodStart := None)
          && (newest.attributes.createdAt.Some? ==> row.value.periodStart == newest.attributes.createdAt))
    && (!seen && row.Some? ==> row.value.updatedAt.value < newest.attributes.updatedAt.value)
  }

  /** What an event may be, for the row to be tracked. It may well be rejected, for renewing before
      the start that is stored. */
  ghost predicate Expected(c: Config, users: set<UserId>, w: Webhook, newest: Webhook, starts: iset<int>)
    requires Dated(newest)
  {
    && WellFormed(c, users, w) && NotNewer(c, w, newest)
    && (w.attributes.createdAt.Some? ==> w.attributes.createdAt.value in starts)
  }

  /** The newest event renews after each of these starts, or brings its own, so that it is not rejected. */
  ghost predicate FitsStarts(newest: Webhook, starts: iset<int>) {
    forall d | d in starts :: FitsStart(Some(d), newest)
  }

  /** An event that is processed leaves the row of the subscription, or replaces it by its own with
      the stored start if it brings none. */
  lemma EventReplacesRow(c: Config, t: Tables, a: Arrival, ownerOf: string -> string)
    requires Owned(t, ownerOf) && RespectsOwner(a.event.webhook, ownerOf) && WellFormed(c, t.users, a.event.webhook)
    requires Outdated(t, a.event.webhook) || FitsStart(StoredStart(t, a.event.webhook.dataId), a.event.webhook)
    ensures var w := a.event.webhook;
            FinalRow(Apply(c, t, a), w.dataId) ==
              if Outdated(t, w) then FinalRow(t, w.dataId)
              else Some(RowOf(c, w).value.(periodStart := OrElse(w.attributes.createdAt, StoredStart(t, w.dataId))))
  {
    WellFormedIsProcessedIff(c, t, a, ownerOf);
  }

  lemma EventTracks(c: Config, t: Tables, a: Arrival, newest: Webhook, seen: bool, starts: iset<int>, ownerOf: string -> string)
    requires Owned(t, ownerOf) && RespectsOwner(a.event.webhook, ownerOf)
    requires Dated(newest) && RowOf(c, newest).Some? && Expected(c, t.users, a.event.webhook, newest, starts)
    requires Tracks(c, t, a.event.webhook.dataId, newest, seen, starts) && (seen || FitsStarts(newest, starts))
    ensures var w, t' := a.event.webhook, Apply(c, t, a);
            && Tracks(c, t', w.dataId, newest, seen || RowOf(c, w) == RowOf(c, newest), starts)
            && (seen ==> StoredStart(t', w.dataId) == StoredStart(t, w.dataId))
  {
    var w := a.event.webhook;
    WellFormedIsProcessedIff(c, t, a, ownerOf);
    if RowOf(c, w) == RowOf(c, newest) && !seen {
      assert FitsStart(StoredStart(t, w.dataId), newest) by {
        assert StoredStart(t, w.dataId).Some? ==> StoredStart(t, w.dataId).value in starts;
      }
      assert Process(c, t, a.event, a.at).Ok?;
    }
    if Process(c, t, a.event, a.at).Ok? {
      EventReplacesRow(c, t, a, ownerOf);
    }
  }

  ghost predicate AllExpected(c: Config, users: set<UserId>, arrivals: seq<Arrival>, id: string, newest: Webhook, starts: iset<int>)
    requires Dated(newest)
  {
    forall i | 0 <= i < |arrivals| && Concerns(arrivals[i].event.webhook, id) ::
      Expected(c, users, arrivals[i].event.webhook, newest, starts)
  }

  ghost predicate Saw(c: Config, arrivals: seq<Arrival>, id: string, newest: Webhook)
    requires Dated(newest)
  {
    exists i :: 0 <= i < |arrivals| && Concerns(arrivals[i].event.webhook, id) && Dated(arrivals[i].event.webhook)
                && RowOf(c, arrivals[i].event.webhook) == RowOf(c, newest)
  }

  lemma SawOneMore(c: Config, arrivals: seq<Arrival>, id: string, newest: Webhook)
    requires Dated(newest) && |arrivals| > 0
    ensures var w := arrivals[|arrivals| - 1].event.webhook;
            Saw(c, arrivals, id, newest) <==>
              Saw(c, arrivals[..|arrivals| - 1], id, newest)
              || (Concerns(w, id) && Dated(w) && RowOf(c, w) == RowOf(c, newest))
  {
    var before := arrivals[..|arrivals| - 1];
    forall i | 0 <= i < |before| ensures before[i] == arrivals[i] {}
  }

  lemma ApplyTracks(c: Config, t: Tables, a: Arrival, id: string, newest: Webhook, seen: bool, starts: iset<int>,
                    ownerOf: string -> string)
    requires Owned(t, ownerOf) && RespectsOwner(a.event.webhook, ownerOf) && Dated(newest) && RowOf(c, newest).Some?
    requires Concerns(a.event.webhook, id) ==> Expected(c, t.users, a.event.webhook, newest, starts)
    requires Tracks(c, t, id, newest, seen, starts) && (seen || FitsStarts(newest, starts))
    ensures var w, t' := a.event.webhook, Apply(c, t, a);
            && Tracks(c, t', id, newest, seen || (Concerns(w, id) && RowOf(c, w) == RowOf(c, newest)), starts)
            && (seen ==> StoredStart(t', id) == StoredStart(t, id))
  {
    if Concerns(a.event.webhook, id) {
      EventTracks(c, t, a, newest, seen, starts, ownerOf);
    } else {
      OtherEventsKeepRegister(c, t, a, id);
    }
  }

  /** A run tracks the row, whatever else arrives in between; once the newest event was seen, the
      period start stays what it is. */
  lemma {:induction false} RunTracks(c: Config, t: Tables, arrivals: seq<Arrival>, id: string, newest: Webhook, seen: bool,
                                     starts: iset<int>, ownerOf: string -> string)
    requires Owned(t, ownerOf) && AllRespectOwner(arrivals, ownerOf)
    requires Dated(newest) && RowOf(c, newest).Some? && AllExpected(c, t.users, arrivals, id, newest, starts)
    requires Tracks(c, t, id, newest, seen, starts) && (seen || FitsStarts(newest, starts))
    ensures var t' := Run(c, t, arrivals);
            && Owned(t', ownerOf) && t'.users == t.users
            && Tracks(c, t', id, newest, seen || Saw(c, arrivals, id, newest), starts)
            && (seen ==> StoredStart(t', id) == StoredStart(t, id))
  {
    if |arrivals| > 0 {
      var n := |arrivals| - 1;
      var before, a := arrivals[..n], arrivals[n];
      RunTracks(c, t, before, id, newest, seen, starts, ownerOf);
      var mid := Run(c, t, before);
      ApplyKeepsOwned(c, mid, a, ownerOf);
      SawOneMore(c, arrivals, id, newest);
      ApplyTracks(c, mid, a, id, newest, seen || Saw(c, before, id, newest), starts, ownerOf);
    }
  }

  ghost function Starts(arrivals: seq<Arrival>, id: string): iset<int> {
    iset w | Tells(arrivals, id, w) && w.attributes.createdAt.Some? :: w.attributes.createdAt.value
  }

  lemma AllAreExpected(c: Config, users: set<UserId>, arrivals: seq<Arrival>, id: string, newest: Webhook)
    requires AllWellFormed(c, users, arrivals, id) && IsNewestEvent(c, arrivals, id, newest)
    ensures RowOf(c, newest).Some? && AllExpected(c, users, arrivals, id, newest, Starts(arrivals, id))
    ensures Saw(c, arrivals, id, newest)
  {
    forall i | 0 <= i < |arrivals| && Concerns(arrivals[i].event.webhook, id)
      ensures Expected(c, users, arrivals[i].event.webhook, newest, Starts(arrivals, id))
    {
      assert Tells(arrivals, id, arrivals[i].event.webhook);
    }
  }

  /** If the newest event has a creation date or no event has one, the final row is the newest
      event's, whatever else is rejected on the way. Otherwise it still is, up to the period start,
      if the newest event renews after every creation date. */
  lemma FinalRowIsOfNewestEvent(c: Config, t: Tables, arrivals: seq<Arrival>, id: string, newest: Webhook, ownerOf: string -> string)
    requires id !in t.confirmed && Owned(t, ownerOf) && AllRespectOwner(arrivals, ownerOf)
    requires AllWellFormed(c, t.users, arrivals, id) && IsNewestEvent(c, arrivals, id, newest)
    ensures RowOf(c, newest).Some?
    ensures var row := FinalRow(Run(c, t, arrivals), id);
            && (newest.attributes.createdAt.Some? || NoneHasCreationDate(arrivals, id) ==> row == RowOf(c, newest))
            && (FitsStarts(newest, Starts(arrivals, id)) ==>
                  row.Some? && row.value.(periodStart := None) == RowOf(c, newest).value.(periodStart := None))
  {
    AllAreExpected(c, t.users, arrivals, id, newest);
    if newest.attributes.createdAt.Some? || NoneHasCreationDate(arrivals, id) || FitsStarts(newest, Starts(arrivals, id)) {
      RunTracks(c, t, arrivals, id, newest, false, Starts(arrivals, id), ownerOf);
    }
  }

  // ---------- Independence of the order ----------

  /** The same events of the subscription arrive, in any order and any number of times. */
  ghost predicate SameEvents(arrivals: seq<Arrival>, arrivals': seq<Arrival>, id: string) {
    forall w :: Tells(arrivals, id, w) <==> Tells(arrivals', id, w)
  }

  ghost predicate OrderDoesNotMatter(c: Config, t: Tables, arrivals: seq<Arrival>, id: string, ownerOf: string -> string) {
    forall arrivals' | SameEvents(arrivals, arrivals', id) && AllRespectOwner(arrivals', ownerOf) ::
      FinalRow(Run(c, t, arrivals'), id) == FinalRow(Run(c, t, arrivals), id)
  }

  /** The final row is the same for every order, every repetition and all other events in between iff
      the newest event carries a creation date or no event of the subscription does. */
  lemma OrderDoesNotMatterIff(c: Config, t: Tables, arrivals: seq<Arrival>, id: string, newest: Webhook, ownerOf: string -> string)
    requires id !in t.confirmed && Owned(t, ownerOf) && AllRespectOwner(arrivals, ownerOf)
    requires AllWellFormed(c, t.users, arrivals, id) && IsNewestEvent(c, arrivals, id, newest)
    ensures OrderDoesNotMatter(c, t, arrivals, id, ownerOf)
            <==> newest.attributes.createdAt.Some? || NoneHasCreationDate(arrivals, id)
  {
    if newest.attributes.createdAt.Some? || NoneHasCreationDate(arrivals, id) {
      forall arrivals' | SameEvents(arrivals, arrivals', id) && AllRespectOwner(arrivals', ownerOf)
        ensures FinalRow(Run(c, t, arrivals'), id) == FinalRow(Run(c, t, arrivals), id)
      {
        BothEndAlike(c, t, arrivals, arrivals', id, newest, ownerOf);
      }
    } else {
      var dated :| Tells(arrivals, id, dated) && dated.attributes.createdAt.Some?;
      var i :| 0 <= i < |arrivals| && arrivals[i].event.webhook == dated;
      var j :| 0 <= j < |arrivals| && arrivals[j].event.webhook == newest;
      StartsDiffer(c, t, arrivals, id, arrivals[i], arrivals[j], ownerOf);
    }
  }

  lemma BothEndAlike(c: Config, t: Tables, arrivals: seq<Arrival>, arrivals': seq<Arrival>, id: string, newest: Webhook,
                     ownerOf: string -> string)
    requires id !in t.confirmed && Owned(t, ownerOf)
    requires AllRespectOwner(arrivals, ownerOf) && AllRespectOwner(arrivals', ownerOf)
    requires AllWellFormed(c, t.users, arrivals, id) && IsNewestEvent(c, arrivals, id, newest)
    requires SameEvents(arrivals, arrivals', id)
    requires newest.attributes.createdAt.Some? || NoneHasCreationDate(arrivals, id)
    ensures FinalRow(Run(c, t, arrivals'), id) == FinalRow(Run(c, t, arrivals), id)
  {
    assert AllWellFormed(c, t.users, arrivals', id) && IsNewestEvent(c, arrivals', id, newest);
    FinalRowIsOfNewestEvent(c, t, arrivals, id, newest, ownerOf);
    FinalRowIsOfNewestEvent(c, t, arrivals', id, newest, ownerOf);
  }

  lemma StartsDiffer(c: Config, t: Tables, arrivals: seq<Arrival>, id: string, dated: Arrival, newest: Arrival, ownerOf: string -> string)
    requires id !in t.confirmed && Owned(t, ownerOf) && AllRespectOwner(arrivals, ownerOf)
    requires dated in arrivals && newest in arrivals && Concerns(dated.event.webhook, id)
    requires AllWellFormed(c, t.users, arrivals, id) && IsNewestEvent(c, arrivals, id, newest.event.webhook)
    requires newest.event.webhook.attributes.createdAt.None? && dated.event.webhook.attributes.createdAt.Some?
    ensures !OrderDoesNotMatter(c, t, arrivals, id, ownerOf)
  {
    var first, second := [dated] + arrivals, [newest] + arrivals;
    DatedFirst(c, t, arrivals, id, dated, ownerOf);
    NewestFirst(c, t, arrivals, id, newest, ownerOf);
    SameWithRepeats(arrivals, id, [dated], ownerOf);
    SameWithRepeats(arrivals, id, [newest], ownerOf);
    assert FinalRow(Run(c, t, first), id) != FinalRow(Run(c, t, second), id) by {
      assert StoredStart(Run(c, t, first), id) != StoredStart(Run(c, t, second), id);
    }
  }

  lemma SameWithRepeats(arrivals: seq<Arrival>, id: string, repeats: seq<Arrival>, ownerOf: string -> string)
    requires AllRespectOwner(arrivals, ownerOf) && forall a | a in repeats :: a in arrivals
    ensures AllRespectOwner(repeats + arrivals, ownerOf)
    ensures SameEvents(arrivals, repeats + arrivals, id)
  {
    var more := repeats + arrivals;
    forall i | 0 <= i < |more| ensures RespectsOwner(more[i].event.webhook, ownerOf) {
      assert more[i] in arrivals;
    }
    forall w | Tells(arrivals, id, w) ensures Tells(more, id, w) {
      var i :| 0 <= i < |arrivals| && arrivals[i].event.webhook == w;
      assert more[|repeats| + i] == arrivals[i];
    }
    forall w | Tells(more, id, w) ensures Tells(arrivals, id, w) {
      var i :| 0 <= i < |more| && more[i].event.webhook == w;
      assert more[i] in arrivals;
    }
  }

  lemma RunOne(c: Config, t: Tables, a: Arrival)
    ensures Run(c, t, [a]) == Apply(c, t, a)
  {
    assert [a][..0] == [] && Run(c, t, []) == t;
  }

  /** The newest event first, then everything: the period never gets a start. */
  lemma NewestFirst(c: Config, t: Tables, arrivals: seq<Arrival>, id: string, newest: Arrival, ownerOf: string -> string)
    requires id !in t.confirmed && Owned(t, ownerOf) && AllRespectOwner(arrivals, ownerOf) && newest in arrivals
    requires AllWellFormed(c, t.users, arrivals, id) && IsNewestEvent(c, arrivals, id, newest.event.webhook)
    requires newest.event.webhook.attributes.createdAt.None?
    ensures StoredStart(Run(c, t, [newest] + arrivals), id) == None
  {
    var w, starts := newest.event.webhook, Starts(arrivals, id);
    var t1 := Apply(c, t, newest);
    AllAreExpected(c, t.users, arrivals, id, w);
    FirstEventStandsAlone(c, t, newest, ownerOf);
    ApplyKeepsOwned(c, t, newest, ownerOf);
    assert Tracks(c, t1, id, w, true, starts);
    RunTracks(c, t1, arrivals, id, w, true, starts, ownerOf);
    RunOne(c, t, newest);
    BillingTheorems.RunConcat(c, t, [newest], arrivals);
  }

  lemma FirstEventStandsAlone(c: Config, t: Tables, a: Arrival, ownerOf: string -> string)
    requires Owned(t, ownerOf) && RespectsOwner(a.event.webhook, ownerOf) && WellFormed(c, t.users, a.event.webhook)
    requires a.event.webhook.dataId !in t.confirmed
    ensures FinalRow(Apply(c, t, a), a.event.webhook.dataId) == RowOf(c, a.event.webhook)
  {
    EventReplacesRow(c, t, a, ownerOf);
  }

  /** A dated event first, then everything: the period keeps some start, whatever comes later. */
  lemma DatedFirst(c: Config, t: Tables, arrivals: seq<Arrival>, id: string, dated: Arrival, ownerOf: string -> string)
    requires id !in t.confirmed && Owned(t, ownerOf) && AllRespectOwner(arrivals, ownerOf)
    requires dated in arrivals && Concerns(dated.event.webhook, id) && AllWellFormed(c, t.users, arrivals, id)
    requires dated.event.webhook.attributes.createdAt.Some?
    ensures StoredStart(Run(c, t, [dated] + arrivals), id).Some?
  {
    assert Tells(arrivals, id, dated.event.webhook);
    FirstEventStandsAlone(c, t, dated, ownerOf);
    RunKeepsStart(c, Apply(c, t, dated), arrivals, id);
    RunOne(c, t, dated);
    BillingTheorems.RunConcat(c, t, [dated], arrivals);
  }

  /** No event ever takes a period start away. */
  lemma ApplyKeepsStart(c: Config, t: Tables, a: Arrival, id: string)
    requires StoredStart(t, id).Some?
    ensures StoredStart(Apply(c, t, a), id).Some?
  {
    if Concerns(a.event.webhook, id) && Process(c, t, a.event, a.at).Ok? {
      assert IsSubscriptionEvent(a.event.webhook) || IsPayment(a.event.webhook);
    } else {
      OtherEventsKeepRegister(c, t, a, id);
    }
  }

  lemma {:induction false} RunKeepsStart(c: Config, t: Tables, arrivals: seq<Arrival>, id: string)
    requires StoredStart(t, id).Some?
    ensures StoredStart(Run(c, t, arrivals), id).Some?
  {
    if |arrivals| > 0 {
      RunKeepsStart(c, t, arrivals[..|arrivals| - 1], id);
      ApplyKeepsStart(c, Run(c, t, arrivals[..|arrivals| - 1]), arrivals[|arrivals| - 1], id);
    }
  }

  // ---------- An example ----------

  function Example(text: string, kind: Kind, createdAt: Option<int>, updatedAt: int): Body {
    Body(text, Webhook(kind, Some(5), "subscriptions", "9",
                     Attributes(1, 2, 3, 0, 7, "active", false, Some(100), None, createdAt, Some(updatedAt), false, 0)))
  }

  /** A dated creation and an undated update of one subscription: both are processed in either
      order, but the period starts at the creation date in one and never in the other. */
  lemma MissingCreationDateBreaksConvergence()
    ensures var c, t := Config("1", "7", false, 0), Tables({5}, map[], map[], map[], map[]);
            var created := Arrival(Example("created", SubscriptionCreated, Some(10), 20), 0);
            var updated := Arrival(Example("updated", SubscriptionChanged, None, 30), 0);
            && created.event != updated.event
            && StoredStart(Run(c, t, [created, updated]), "9") == Some(10)
            && "9" in Run(c, t, [updated, created]).confirmed
            && StoredStart(Run(c, t, [updated, created]), "9") == None
  {
    var c, t := Config("1", "7", false, 0), Tables({5}, map[], map[], map[], map[]);
    var created := Arrival(Example("created", SubscriptionCreated, Some(10), 20), 0);
    var updated := Arrival(Example("updated", SubscriptionChanged, None, 30), 0);
    var ownerOf := (order: string) => "9";
    ExampleIsWellFormed("created", SubscriptionCreated, Some(10), 20);
    ExampleIsWellFormed("updated", SubscriptionChanged, None, 30);
    var t1, t2 := Apply(c, t, created), Apply(c, t, updated);
    EventReplacesRow(c, t, created, ownerOf);
    ApplyKeepsOwned(c, t, created, ownerOf);
    EventReplacesRow(c, t1, updated, ownerOf);
    EventReplacesRow(c, t, updated, ownerOf);
    ApplyKeepsOwned(c, t, updated, ownerOf);
    EventReplacesRow(c, t2, created, ownerOf);
    BillingTheorems.RunOfTwo(c, t, created, updated);
    BillingTheorems.RunOfTwo(c, t, updated, created);
  }

  lemma ExampleIsWellFormed(text: string, kind: Kind, createdAt: Option<int>, updatedAt: int)
    requires kind.SubscriptionCreated? || kind.SubscriptionChanged?
    requires createdAt.Some? ==> createdAt.value <= 100
    ensures WellFormed(Config("1", "7", false, 0), {5}, Example(text, kind, createdAt, updatedAt).webhook)
  {
    ActiveIsActive();
  }

  lemma ActiveIsActive()
    ensures ToLower(TrimSpace("active")) == "active"
    ensures Decimal(1) == "1" && Decimal(3) == "3" && Decimal(7) == "7"
  {
    assert TrimRight("active") == "active";
  }
}
