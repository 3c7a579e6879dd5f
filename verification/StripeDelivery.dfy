/**
 At-least-once delivery of Stripe events (app/routes/webhooks_stripe.py:30-38 around
 app/services/billing_service.py:7-14, 26-75).

 The tables hold committed rows only: the handler commits once when it creates a missing
 subscription and once at its end, and the route commits the processed-event marker last,
 so a process can die between any two of these.  Subscriptions are keyed by tenant, their
 primary key.  The handler looks its row up by columns that are neither unique nor ordered,
 so which of several matching rows it gets is an arbitrary choice of every delivery.
 */
module StripeDelivery {
  import opened Common

  datatype Subscription = Subscription(
    customerId: Option<string>, subscriptionId: Option<string>, planId: string, status: string,
    currentPeriodEnd: Option<int>)

  type Subscriptions = map<string, Subscription>

  /** `planId` is absent without line items, and `Some(None)` when the first item's price has no id to store. */
  datatype Payload =
    | CheckoutCompleted(tenantId: Option<string>, customerId: Option<string>, subscriptionId: Option<string>)
    | SubscriptionChanged(subscriptionId: Option<string>, customerId: Option<string>, status: Option<string>,
                          planId: Option<Option<string>>, periodEnd: Option<int>)
    | Unhandled

  datatype Event = Event(id: string, payload: Payload)

  /** What the database refuses: an unknown tenant's row if it checks references; null in a NOT NULL column always. */
  datatype Schema = Schema(foreignKeys: bool, tenants: set<string>)

  const FREE := Subscription(None, None, "free", "active", None)

  predicate Insertable(schema: Schema, tenant: string) {
    schema.foreignKeys ==> tenant in schema.tenants
  }

  /** The rows respect the reference to their tenants. */
  predicate Valid(schema: Schema, subs: Subscriptions) {
    schema.foreignKeys ==> subs.Keys <= schema.tenants
  }

  // ---- The lookup ----------------------------------------------------------------------------------------

  /** `stripe_subscription_id == sub_id`; a null id finds the rows whose id is null. */
  function Carriers(subs: Subscriptions, id: Option<string>): set<string> {
    set t | t in subs && subs[t].subscriptionId == id
  }

  function Customers(subs: Subscriptions, id: Option<string>): set<string> {
    set t | t in subs && subs[t].customerId == id
  }

  /** The rows the event may be about: those carrying its id, else those of its customer. */
  function Matching(subs: Subscriptions, p: Payload): set<string>
    requires p.SubscriptionChanged?
  {
    if Carriers(subs, p.subscriptionId) != {} || !Truthy(p.customerId) then Carriers(subs, p.subscriptionId)
    else Customers(subs, p.customerId)
  }

  /** `target` is a row the lookup may return. */
  predicate IsTarget(subs: Subscriptions, p: Payload, target: Option<string>) {
    p.SubscriptionChanged? ==>
      if Matching(subs, p) == {} then target.None? else target.Some? && target.value in Matching(subs, p)
  }

  // ---- The handler -----------------------------------------------------------------------------------------

  /** The event's values include one the table cannot store. */
  predicate Unstorable(p: Payload)
    requires p.SubscriptionChanged?
  {
    p.status.None? || p.planId == Some(None)
  }

  function Changed(s: Subscription, p: Payload): Subscription
    requires p.SubscriptionChanged? && !Unstorable(p)
  {
    s.(status := p.status.value, subscriptionId := p.subscriptionId,
       planId := if p.planId.Some? then p.planId.value.value else s.planId,
       currentPeriodEnd := if p.periodEnd.Some? && p.periodEnd.value != 0 then p.periodEnd else s.currentPeriodEnd)
  }

  /** A commit of the handler fails, and with it the request. */
  predicate Raises(schema: Schema, subs: Subscriptions, p: Payload, target: Option<string>) {
    match p
    case CheckoutCompleted(tenant, _, _) => Truthy(tenant) && tenant.value !in subs && !Insertable(schema, tenant.value)
    case SubscriptionChanged(_, _, _, _, _) => target.Some? && target.value in subs && Unstorable(p)
    case Unhandled => false
  }

  function GetSubscription(subs: Subscriptions, tenant: string): Subscriptions {
    if tenant in subs then subs else subs[tenant := FREE]
  }

  function Handle(schema: Schema, subs: Subscriptions, p: Payload, target: Option<string>): Subscriptions {
    if Raises(schema, subs, p, target) then subs else
    match p
    case CheckoutCompleted(tenant, customer, subscription) =>
      if !Truthy(tenant) then subs else
      var all := GetSubscription(subs, tenant.value);
      all[tenant.value := all[tenant.value].(customerId := customer, subscriptionId := subscription)]
    case SubscriptionChanged(_, _, _, _, _) =>
      if target.Some? && target.value in subs then subs[target.value := Changed(subs[target.value], p)] else subs
    case Unhandled => subs
  }

  /** The rows if the process dies before the handler's last commit. */
  function HandleCutShort(schema: Schema, subs: Subscriptions, p: Payload): Subscriptions {
    if p.CheckoutCompleted? && Truthy(p.tenantId) && !Raises(schema, subs, p, None)
    then GetSubscription(subs, p.tenantId.value)
    else subs
  }

  // ---- The route ---------------------------------------------------------------------------------------

  datatype Crash = Survives | BeforeHandlerCommit | BeforeMarker

  /** One delivery, with the row its lookup returns. */
  datatype Delivery = Delivery(event: Event, target: Option<string>, crash: Crash)

  datatype State = State(subs: Subscriptions, processed: set<string>)

  predicate AlreadyProcessed(s: State, e: Event) {
    e.id != "" && e.id in s.processed
  }

  function Mark(processed: set<string>, id: string): set<string> {
    if id == "" then processed else processed + {id}
  }

  function Deliver(schema: Schema, s: State, d: Delivery): State {
    var p := d.event.payload;
    if AlreadyProcessed(s, d.event) || Raises(schema, s.subs, p, d.target) then s else
    match d.crash
    case BeforeHandlerCommit => s.(subs := HandleCutShort(schema, s.subs, p))
    case BeforeMarker => s.(subs := Handle(schema, s.subs, p, d.target))
    case Survives => State(Handle(schema, s.subs, p, d.target), Mark(s.processed, d.event.id))
  }

  class Billing {
    const schema: Schema
    var subs: Subscriptions
    var processed: set<string>

    constructor (schema: Schema, s: State)
      ensures this.schema == schema && View() == s
    {
      this.schema := schema;
      subs, processed := s.subs, s.processed;
    }

    function View(): State
      reads this
    {
      State(subs, processed)
    }

    method GetOrCreateSubscription(tenant: string) returns (raised: bool)
      modifies this`subs
      ensures raised == (tenant !in old(subs) && !Insertable(schema, tenant))
      ensures subs == if raised then old(subs) else GetSubscription(old(subs), tenant)
    {
      if tenant !in subs {
        if !Insertable(schema, tenant) {
          return true;
        }
        subs := subs[tenant := FREE];
      }
      return false;
    }

    /** `.first()`: some matching row, none of them preferred. */
    method First(matching: set<string>) returns (row: Option<string>)
      ensures if matching == {} then row.None? else row.Some? && row.value in matching
    {
      if matching == {} {
        return None;
      }
      var t :| t in matching;
      return Some(t);
    }

    /** `dies` cuts the process off just before the handler's last commit. */
    method HandleStripeWebhook(p: Payload, dies: bool) returns (target: Option<string>, raised: bool)
      modifies this`subs
      ensures IsTarget(old(subs), p, target)
      ensures raised == Raises(schema, old(subs), p, target)
      ensures subs == if dies then HandleCutShort(schema, old(subs), p) else Handle(schema, old(subs), p, target)
    {
      target, raised := None, false;
      if p.CheckoutCompleted? {
        if Truthy(p.tenantId) {
          raised := GetOrCreateSubscription(p.tenantId.value);
          if !raised && !dies {
            var sub := subs[p.tenantId.value].(customerId := p.customerId);
            sub := sub.(subscriptionId := p.subscriptionId);
            subs := subs[p.tenantId.value := sub];
          }
        }
      } else if p.SubscriptionChanged? {
        target := First(Carriers(subs, p.subscriptionId));
        if target.None? && Truthy(p.customerId) {
          target := First(Customers(subs, p.customerId));
        }
        if target.Some? {
          if p.status.None? || p.planId == Some(None) {
            raised := true;
            return;
          }
          var sub := subs[target.value].(status := p.status.value);
          sub := sub.(subscriptionId := p.subscriptionId);
          if p.planId.Some? {
            sub := sub.(planId := p.planId.value.value);
          }
          if p.periodEnd.Some? && p.periodEnd.value != 0 {
            sub := sub.(currentPeriodEnd := p.periodEnd);
          }
          if !dies {
            subs := subs[target.value := sub];
          }
        }
      }
    }

    method StripeWebhook(e: Event, crash: Crash) returns (d: Delivery)
      modifies this
      ensures d.event == e && d.crash == crash
      ensures AlreadyProcessed(old(View()), e) || IsTarget(old(subs), e.payload, d.target)
      ensures View() == Deliver(schema, old(View()), d)
    {
      d := Delivery(e, None, crash);
      if e.id != "" && e.id in processed {
        return;
      }
      var target, raised := HandleStripeWebhook(e.payload, crash == BeforeHandlerCommit);
      d := Delivery(e, target, crash);
      if raised || crash != Survives {
        return;
      }
      if e.id != "" {
        processed := processed + {e.id};
      }
    }
  }

  // ---- One event -------------------------------------------------------------------------------------------

  /** A subscription of a tenant that had none, or the one it has. */
  ghost function Before(subs: Subscriptions, tenant: string): Subscription {
    if tenant in subs then subs[tenant] else Subscription(None, None, "free", "active", None)
  }

  /** The rows carrying an id, and those of a customer. */
  ghost predicate CarriesId(subs: Subscriptions, t: string, id: Option<string>) {
    t in subs && subs[t].subscriptionId == id
  }

  ghost predicate IsCustomer(subs: Subscriptions, t: string, id: Option<string>) {
    t in subs && subs[t].customerId == id
  }

  /** A checkout links the tenant's row, new or not, and leaves its terms; a crash leaves at most the row. */
  lemma CheckoutOutcome(schema: Schema, subs: Subscriptions, p: Payload)
    requires p.CheckoutCompleted? && Truthy(p.tenantId)
    ensures var t, after, cut := p.tenantId.value, Handle(schema, subs, p, None), HandleCutShort(schema, subs, p);
            if t !in subs && schema.foreignKeys && t !in schema.tenants then after == cut == subs
            else
              && after == subs[t := Before(subs, t).(customerId := p.customerId, subscriptionId := p.subscriptionId)]
              && cut == subs[t := Before(subs, t)]
  {
  }

  /**
   A change finds some row carrying its id, else one of its customer, and sets there the
   status, the id, a plan and a period if it names them, and nothing anywhere else; a
   status or plan that cannot be stored fails the whole request.
   */
  lemma ChangeOutcome(schema: Schema, subs: Subscriptions, p: Payload, target: Option<string>)
    requires p.SubscriptionChanged? && IsTarget(subs, p, target)
    ensures var after := Handle(schema, subs, p, target);
            && (target.None? ==>
                  after == subs && forall t :: !CarriesId(subs, t, p.subscriptionId)
                                               && !(Truthy(p.customerId) && IsCustomer(subs, t, p.customerId)))
            && (target.Some? ==>
                  var t := target.value;
                  && (CarriesId(subs, t, p.subscriptionId)
                      || (Truthy(p.customerId) && IsCustomer(subs, t, p.customerId)
                          && forall u :: !CarriesId(subs, u, p.subscriptionId)))
                  && (Raises(schema, subs, p, target) <==> p.status.None? || p.planId == Some(None))
                  && if p.status.None? || p.planId == Some(None) then after == subs
                     else
                       && t in after && after == subs[t := after[t]]
                       && after[t] == Subscription(
                                        subs[t].customerId, p.subscriptionId,
                                        match p.planId case Some(plan) => plan.value case None => subs[t].planId,
                                        p.status.value,
                                        if p.periodEnd.None? || p.periodEnd.value == 0 then subs[t].currentPeriodEnd
                                        else p.periodEnd))
  {
    assert forall t :: CarriesId(subs, t, p.subscriptionId) <==> t in Carriers(subs, p.subscriptionId);
    assert forall t :: IsCustomer(subs, t, p.customerId) <==> t in Customers(subs, p.customerId);
  }

  // ---- One event twice --------------------------------------------------------------------------------------

  /** The row already has what the event would set. */
  predicate Holds(s: Subscription, p: Payload)
    requires p.SubscriptionChanged?
  {
    && Some(s.status) == p.status && s.subscriptionId == p.subscriptionId
    && (p.planId.Some? ==> p.planId.value == Some(s.planId))
    && (p.periodEnd.Some? && p.periodEnd.value != 0 ==> s.currentPeriodEnd == p.periodEnd)
  }

  /** Read off the rows: handling the event would change none of them. */
  predicate StillCarries(schema: Schema, subs: Subscriptions, p: Payload, target: Option<string>) {
    match p
    case CheckoutCompleted(tenant, customer, subscription) =>
      Truthy(tenant) ==>
        if tenant.value in subs
        then subs[tenant.value].customerId == customer && subs[tenant.value].subscriptionId == subscription
        else !Insertable(schema, tenant.value)
    case SubscriptionChanged(_, _, _, _, _) =>
      target.Some? && target.value in subs ==> Unstorable(p) || Holds(subs[target.value], p)
    case Unhandled => true
  }

  /** Handling an event changes nothing exactly when the rows still carry it. */
  lemma HandlingChangesNothingIff(schema: Schema, subs: Subscriptions, p: Payload, target: Option<string>)
    ensures Handle(schema, subs, p, target) == subs <==> StillCarries(schema, subs, p, target)
  {
    match p
    case CheckoutCompleted(tenant, _, _) =>
      if Truthy(tenant) && tenant.value in subs {
        assert Handle(schema, subs, p, target)[tenant.value] == subs[tenant.value]
               <==> StillCarries(schema, subs, p, target);
      }
    case SubscriptionChanged(_, _, _, _, _) =>
      if target.Some? && target.value in subs && !Unstorable(p) {
        assert Handle(schema, subs, p, target)[target.value] == Changed(subs[target.value], p);
        assert Changed(subs[target.value], p) == subs[target.value] <==> Holds(subs[target.value], p);
      }
    case Unhandled =>
  }

  /** At most one row carries the event's id, or every row that does already holds the event. */
  predicate Unambiguous(subs: Subscriptions, p: Payload) {
    p.SubscriptionChanged? && !Unstorable(p) ==>
      || (forall x, y :: x in Carriers(subs, p.subscriptionId) && y in Carriers(subs, p.subscriptionId) ==> x == y)
      || (forall x :: x in Carriers(subs, p.subscriptionId) ==> Holds(subs[x], p))
  }

  /** Whatever rows the two lookups return, the second handling changes nothing. */
  ghost predicate TwiceIsOnce(schema: Schema, subs: Subscriptions, p: Payload) {
    forall t, u :: IsTarget(subs, p, t) && IsTarget(Handle(schema, subs, p, t), p, u)
                   ==> Handle(schema, Handle(schema, subs, p, t), p, u) == Handle(schema, subs, p, t)
  }

  lemma SecondHandling(schema: Schema, subs: Subscriptions, p: Payload, t: Option<string>, u: Option<string>)
    requires Unambiguous(subs, p) && IsTarget(subs, p, t) && IsTarget(Handle(schema, subs, p, t), p, u)
    ensures Handle(schema, Handle(schema, subs, p, t), p, u) == Handle(schema, subs, p, t)
  {
    var after := Handle(schema, subs, p, t);
    HandlingChangesNothingIff(schema, after, p, u);
    if p.SubscriptionChanged? && !Unstorable(p) && t.Some? {
      assert t.value in Carriers(after, p.subscriptionId);
      assert u.Some? && u.value in Carriers(after, p.subscriptionId);
      if u != t {
        assert u.value in Carriers(subs, p.subscriptionId);
        assert t.value in Carriers(subs, p.subscriptionId);
      }
    }
  }

  lemma SecondRowIsTouched(schema: Schema, subs: Subscriptions, p: Payload, x: string, y: string)
    requires p.SubscriptionChanged? && !Unstorable(p) && x != y
    requires x in Carriers(subs, p.subscriptionId) && y in Carriers(subs, p.subscriptionId) && !Holds(subs[y], p)
    ensures !TwiceIsOnce(schema, subs, p)
  {
    var after := Handle(schema, subs, p, Some(x));
    assert IsTarget(subs, p, Some(x));
    assert after[y] == subs[y] && y in Carriers(after, p.subscriptionId);
    assert IsTarget(after, p, Some(y));
    HandlingChangesNothingIff(schema, after, p, Some(y));
  }

  /**
   Handling an event twice is handling it once, whichever rows the lookups return, exactly
   when at most one row carries its id or all that do already hold it.  Falling back on
   the customer is fine: it gives the row the id the next lookup finds it by.
   */
  lemma HandlerIsIdempotentIff(schema: Schema, subs: Subscriptions, p: Payload)
    ensures TwiceIsOnce(schema, subs, p) <==> Unambiguous(subs, p)
  {
    if Unambiguous(subs, p) {
      forall t, u | IsTarget(subs, p, t) && IsTarget(Handle(schema, subs, p, t), p, u)
        ensures Handle(schema, Handle(schema, subs, p, t), p, u) == Handle(schema, subs, p, t)
      {
        SecondHandling(schema, subs, p, t, u);
      }
    } else {
      var carriers := Carriers(subs, p.subscriptionId);
      var y :| y in carriers && !Holds(subs[y], p);
      var x :| x in carriers && x != y;
      SecondRowIsTouched(schema, subs, p, x, y);
    }
  }

  /** A checkout cut off after creating the subscription is completed by the next handling. */
  lemma CutShortIsHarmless(schema: Schema, subs: Subscriptions, p: Payload, target: Option<string>)
    ensures Handle(schema, HandleCutShort(schema, subs, p), p, target) == Handle(schema, subs, p, target)
  {
  }

  // ---- Delivery sequences -----------------------------------------------------------------------------------

  function Run(schema: Schema, s: State, ds: seq<Delivery>): State
    decreases |ds|
  {
    if ds == [] then s else Run(schema, Deliver(schema, s, ds[0]), ds[1..])
  }

  /** Each delivery's row is one its lookup may return. */
  predicate Possible(schema: Schema, s: State, ds: seq<Delivery>)
    decreases |ds|
  {
    ds == [] || (IsTarget(s.subs, ds[0].event.payload, ds[0].target)
                 && Possible(schema, Deliver(schema, s, ds[0]), ds[1..]))
  }

  /** The event can only fail or do nothing, in any table. */
  predicate Inert(schema: Schema, p: Payload) {
    match p
    case CheckoutCompleted(tenant, _, _) => Truthy(tenant) && !Insertable(schema, tenant.value)
    case SubscriptionChanged(_, _, _, _, _) => Unstorable(p)
    case Unhandled => false
  }

  /**
   The deliveries exactly-once delivery would amount to: of every event that can take
   effect the first delivery to reach the handler's last commit, and every delivery of an
   event without an id.
   */
  function FirstOccurrences(schema: Schema, ds: seq<Delivery>, seen: set<string>): seq<Delivery>
    decreases |ds|
  {
    if ds == [] then [] else
    var e := ds[0].event;
    if (e.id != "" && e.id in seen) || Inert(schema, e.payload) || ds[0].crash == BeforeHandlerCommit
    then FirstOccurrences(schema, ds[1..], seen)
    else [ds[0]] + FirstOccurrences(schema, ds[1..], Mark(seen, e.id))
  }

  /** Handling deliveries one after the other, each once and to the end. */
  function Fold(schema: Schema, subs: Subscriptions, ds: seq<Delivery>): Subscriptions
    decreases |ds|
  {
    if ds == [] then subs else Fold(schema, Handle(schema, subs, ds[0].event.payload, ds[0].target), ds[1..])
  }

  /** A delivery that crashed is followed at once by another delivery of the same event. */
  predicate CrashesAreRetriedNext(ds: seq<Delivery>) {
    forall k :: 0 <= k < |ds| && ds[k].crash != Survives ==> k + 1 < |ds| && ds[k + 1].event == ds[k].event
  }

  /** A non-empty id names one event. */
  predicate IdsNameEvents(ds: seq<Delivery>) {
    forall j, k :: 0 <= j < k < |ds| && ds[j].event.id == ds[k].event.id != "" ==> ds[j].event == ds[k].event
  }

  /** Whenever an identified event's handling commits but its marker is lost, handling it again is harmless. */
  predicate RetriesAreUnambiguous(schema: Schema, s: State, ds: seq<Delivery>)
    decreases |ds|
  {
    || ds == []
    || (&& (ds[0].crash == BeforeMarker && ds[0].event.id != "" ==> Unambiguous(s.subs, ds[0].event.payload))
        && RetriesAreUnambiguous(schema, Deliver(schema, s, ds[0]), ds[1..]))
  }

  lemma InertDoesNothing(schema: Schema, s: State, d: Delivery)
    requires Valid(schema, s.subs) && Inert(schema, d.event.payload)
    ensures Deliver(schema, s, d).subs == s.subs
    ensures Deliver(schema, s, d).processed in {s.processed, Mark(s.processed, d.event.id)}
  {
  }

  lemma DeliverKeepsValid(schema: Schema, s: State, d: Delivery)
    requires Valid(schema, s.subs)
    ensures Valid(schema, Deliver(schema, s, d).subs)
  {
  }

  /** A mark on an event that is never counted, or never delivered, makes no difference. */
  lemma {:induction false} MarkIsIdle(schema: Schema, ds: seq<Delivery>, seen: set<string>, id: string)
    requires forall k :: 0 <= k < |ds| && ds[k].event.id == id ==> Inert(schema, ds[k].event.payload)
    ensures FirstOccurrences(schema, ds, seen + {id}) == FirstOccurrences(schema, ds, seen)
    decreases |ds|
  {
    if ds != [] {
      var e, tail := ds[0].event, ds[1..];
      assert forall k :: 0 <= k < |tail| ==> tail[k] == ds[k + 1];
      MarkIsIdle(schema, tail, seen, id);
      MarkIsIdle(schema, tail, Mark(seen, e.id), id);
      assert Mark(seen + {id}, e.id) == Mark(seen, e.id) + {id};
    }
  }

  /** Deliveries of a cut-short event lead to the handling that completes it. */
  lemma {:induction false} CutShortFolds(schema: Schema, subs: Subscriptions, e: Event, ds: seq<Delivery>,
                                         seen: set<string>)
    requires CrashesAreRetriedNext(ds) && ds != [] && ds[0].event == e && (e.id == "" || e.id !in seen)
    ensures Fold(schema, HandleCutShort(schema, subs, e.payload), FirstOccurrences(schema, ds, seen))
            == Fold(schema, subs, FirstOccurrences(schema, ds, seen)) || Inert(schema, e.payload)
    decreases |ds|
  {
    var tail := ds[1..];
    if Inert(schema, e.payload) {
    } else if ds[0].crash == BeforeHandlerCommit {
      assert forall k :: 0 <= k < |tail| ==> tail[k] == ds[k + 1];
      CutShortFolds(schema, subs, e, tail, seen);
    } else {
      CutShortIsHarmless(schema, subs, e.payload, ds[0].target);
      var rest := FirstOccurrences(schema, tail, Mark(seen, e.id));
      assert ([ds[0]] + rest)[1..] == rest;
    }
  }

  /** After a handling that lost its marker, the retry adds nothing to the fold. */
  lemma {:induction false} RetryFolds(schema: Schema, before: Subscriptions, t: Option<string>, s: State, e: Event,
                                      ds: seq<Delivery>)
    requires Unambiguous(before, e.payload) && IsTarget(before, e.payload, t) && !Inert(schema, e.payload)
    requires s.subs == Handle(schema, before, e.payload, t) && Valid(schema, before)
    requires e.id != "" && e.id !in s.processed
    requires CrashesAreRetriedNext(ds) && ds != [] && ds[0].event == e && Possible(schema, s, ds)
    ensures Fold(schema, s.subs, FirstOccurrences(schema, ds, s.processed))
            == Fold(schema, s.subs, FirstOccurrences(schema, ds, Mark(s.processed, e.id)))
    decreases |ds|
  {
    var tail := ds[1..];
    if ds[0].crash == BeforeHandlerCommit {
      assert forall k :: 0 <= k < |tail| ==> tail[k] == ds[k + 1];
      assert HandleCutShort(schema, s.subs, e.payload) == s.subs;
      assert Deliver(schema, s, ds[0]) == s;
      RetryFolds(schema, before, t, s, e, tail);
    } else {
      SecondHandling(schema, before, e.payload, t, ds[0].target);
      var rest := FirstOccurrences(schema, tail, Mark(s.processed, e.id));
      assert ([ds[0]] + rest)[1..] == rest;
    }
  }

  /**
   For any delivery sequence, with repeats in any order, crashes at any commit as long as
   the event is redelivered next, and handlings that fail: the final subscriptions are
   those of handling each event once, in the order of first occurrences.
   */
  lemma {:induction false} DeliveryIsExactlyOnce(schema: Schema, s: State, ds: seq<Delivery>)
    requires Valid(schema, s.subs) && Possible(schema, s, ds) && IdsNameEvents(ds)
    requires CrashesAreRetriedNext(ds) && RetriesAreUnambiguous(schema, s, ds)
    ensures Run(schema, s, ds).subs == Fold(schema, s.subs, FirstOccurrences(schema, ds, s.processed))
    decreases |ds|
  {
    if ds != [] {
      var d, tail := ds[0], ds[1..];
      var e, next := d.event, Deliver(schema, s, d);
      assert forall k :: 0 <= k < |tail| ==> tail[k] == ds[k + 1];
      DeliverKeepsValid(schema, s, d);
      DeliveryIsExactlyOnce(schema, next, tail);
      if AlreadyProcessed(s, e) {
      } else if Inert(schema, e.payload) {
        InertDoesNothing(schema, s, d);
        if e.id != "" {
          MarkIsIdle(schema, tail, s.processed, e.id);
        }
      } else if d.crash == BeforeHandlerCommit {
        CutShortFolds(schema, s.subs, e, tail, s.processed);
      } else {
        var rest := FirstOccurrences(schema, tail, Mark(s.processed, e.id));
        assert ([d] + rest)[1..] == rest;
        if d.crash == BeforeMarker && e.id != "" {
          RetryFolds(schema, s.subs, d.target, next, e, tail);
        }
      }
    }
  }

  predicate CrashFree(ds: seq<Delivery>) {
    forall k :: 0 <= k < |ds| ==> ds[k].crash == Survives
  }

  /** Without crashes nothing is asked of the rows or the order: repeats of identified events change nothing. */
  lemma {:induction false} RepeatsAreIgnored(schema: Schema, s: State, ds: seq<Delivery>)
    requires Valid(schema, s.subs) && IdsNameEvents(ds) && CrashFree(ds)
    ensures Run(schema, s, ds).subs == Fold(schema, s.subs, FirstOccurrences(schema, ds, s.processed))
    decreases |ds|
  {
    if ds != [] {
      var d, tail := ds[0], ds[1..];
      var e := d.event;
      assert forall k :: 0 <= k < |tail| ==> tail[k] == ds[k + 1];
      DeliverKeepsValid(schema, s, d);
      RepeatsAreIgnored(schema, Deliver(schema, s, d), tail);
      if AlreadyProcessed(s, e) {
      } else if Inert(schema, e.payload) {
        InertDoesNothing(schema, s, d);
        if e.id != "" {
          MarkIsIdle(schema, tail, s.processed, e.id);
        }
      } else {
        var rest := FirstOccurrences(schema, tail, Mark(s.processed, e.id));
        assert ([d] + rest)[1..] == rest;
      }
    }
  }

  // ---- Late redelivery -------------------------------------------------------------------------------------

  lemma {:induction false} RunAppend(schema: Schema, s: State, ds: seq<Delivery>, d: Delivery)
    ensures Run(schema, s, ds + [d]) == Deliver(schema, Run(schema, s, ds), d)
    decreases |ds|
  {
    if ds == [] {
      assert Run(schema, s, [] + [d]) == Run(schema, Deliver(schema, s, d), [d][1..]);
    } else {
      assert (ds + [d])[1..] == ds[1..] + [d];
      RunAppend(schema, Deliver(schema, s, ds[0]), ds[1..], d);
    }
  }

  lemma {:induction false} SeenIsSkipped(schema: Schema, ds: seq<Delivery>, d: Delivery, seen: set<string>)
    requires d.event.id != "" && d.event.id in seen
    ensures FirstOccurrences(schema, ds + [d], seen) == FirstOccurrences(schema, ds, seen)
    decreases |ds|
  {
    if ds == [] {
      assert [d][1..] == [];
    } else {
      assert (ds + [d])[1..] == ds[1..] + [d];
      SeenIsSkipped(schema, ds[1..], d, seen);
      SeenIsSkipped(schema, ds[1..], d, Mark(seen, ds[0].event.id));
    }
  }

  lemma {:induction false} OthersDoNotMark(schema: Schema, s: State, ds: seq<Delivery>, id: string)
    requires id !in s.processed && forall k :: 0 <= k < |ds| ==> ds[k].event.id != id
    ensures id !in Run(schema, s, ds).processed
    decreases |ds|
  {
    if ds != [] {
      assert forall k :: 0 <= k < |ds| - 1 ==> ds[1..][k] == ds[k + 1];
      OthersDoNotMark(schema, Deliver(schema, s, ds[0]), ds[1..], id);
    }
  }

  lemma {:induction false} InertIsSkipped(schema: Schema, ds: seq<Delivery>, d: Delivery, seen: set<string>)
    requires Inert(schema, d.event.payload)
    ensures FirstOccurrences(schema, ds + [d], seen) == FirstOccurrences(schema, ds, seen)
    decreases |ds|
  {
    if ds == [] {
      assert [d][1..] == [];
    } else {
      assert (ds + [d])[1..] == ds[1..] + [d];
      InertIsSkipped(schema, ds[1..], d, seen);
      InertIsSkipped(schema, ds[1..], d, Mark(seen, ds[0].event.id));
    }
  }

  /** Handling each event once leaves what the run leaves before the redelivery. */
  lemma OnceEach(schema: Schema, s: State, first: Delivery, mid: seq<Delivery>, last: Delivery)
    requires Valid(schema, s.subs) && first.event == last.event && first.crash == BeforeMarker && last.crash == Survives
    requires first.event.id != "" && first.event.id !in s.processed
    requires forall k :: 0 <= k < |mid| ==> mid[k].event.id != first.event.id
    ensures Fold(schema, s.subs, FirstOccurrences(schema, [first] + mid + [last], s.processed))
            == Fold(schema, Deliver(schema, s, first).subs, FirstOccurrences(schema, mid, s.processed))
  {
    var e, rest := first.event, mid + [last];
    assert [first] + mid + [last] == [first] + rest;
    assert ([first] + rest)[1..] == rest;
    MarkIsIdle(schema, mid, s.processed, e.id);
    SeenIsSkipped(schema, mid, last, s.processed + {e.id});
    if Inert(schema, e.payload) {
      InertDoesNothing(schema, s, first);
      InertIsSkipped(schema, mid, last, s.processed);
    } else {
      var counted := FirstOccurrences(schema, rest, Mark(s.processed, e.id));
      assert ([first] + counted)[1..] == counted;
    }
  }

  /** Deliveries that amount to exactly-once delivery from `s`: crash-free, or retried next on unambiguous rows. */
  predicate Orderly(schema: Schema, s: State, ds: seq<Delivery>) {
    && IdsNameEvents(ds)
    && (CrashFree(ds) || (CrashesAreRetriedNext(ds) && Possible(schema, s, ds) && RetriesAreUnambiguous(schema, s, ds)))
  }

  lemma OrderlyIsExactlyOnce(schema: Schema, s: State, ds: seq<Delivery>)
    requires Valid(schema, s.subs) && Orderly(schema, s, ds)
    ensures Run(schema, s, ds).subs == Fold(schema, s.subs, FirstOccurrences(schema, ds, s.processed))
  {
    if CrashFree(ds) {
      RepeatsAreIgnored(schema, s, ds);
    } else {
      DeliveryIsExactlyOnce(schema, s, ds);
    }
  }

  /**
   A crash before the marker, deliveries of other events that may themselves repeat, crash
   and be retried, then the stale event again: the outcome is that of handling each event
   once exactly when, by the time of the redelivery, the rows still carry the stale event.
   */
  lemma LateRedeliveryIsHarmlessIff(schema: Schema, s: State, first: Delivery, mid: seq<Delivery>, last: Delivery)
    requires Valid(schema, s.subs) && first.event == last.event && first.crash == BeforeMarker && last.crash == Survives
    requires first.event.id != "" && first.event.id !in s.processed
    requires Orderly(schema, Deliver(schema, s, first), mid)
    requires forall k :: 0 <= k < |mid| ==> mid[k].event.id != first.event.id
    ensures var ds, stale := [first] + mid + [last], Run(schema, s, [first] + mid).subs;
            Run(schema, s, ds).subs == Fold(schema, s.subs, FirstOccurrences(schema, ds, s.processed))
            <==> StillCarries(schema, stale, last.event.payload, last.target)
  {
    hide Orderly;
    var e := first.event;
    var s1 := Deliver(schema, s, first);
    var s2 := Run(schema, s1, mid);
    DeliverKeepsValid(schema, s, first);
    assert ([first] + mid)[1..] == mid;
    RunAppend(schema, s, [first] + mid, last);
    OthersDoNotMark(schema, s1, mid, e.id);
    HandlingChangesNothingIff(schema, s2.subs, e.payload, last.target);
    OrderlyIsExactlyOnce(schema, s1, mid);
    OnceEach(schema, s, first, mid, last);
  }

  /** A crash before the handler's commit only delays an event that creates no row: its next delivery is its first. */
  lemma EarlyCrashOnlyDelays(schema: Schema, s: State, first: Delivery, rest: seq<Delivery>)
    requires Valid(schema, s.subs) && first.crash == BeforeHandlerCommit && CrashFree(rest) && IdsNameEvents(rest)
    requires var p := first.event.payload; p.CheckoutCompleted? && Truthy(p.tenantId) ==> p.tenantId.value in s.subs
    ensures Run(schema, s, [first] + rest).subs
            == Fold(schema, s.subs, FirstOccurrences(schema, [first] + rest, s.processed))
  {
    assert ([first] + rest)[1..] == rest;
    RepeatsAreIgnored(schema, s, rest);
    assert Deliver(schema, s, first) == s;
    assert FirstOccurrences(schema, [first] + rest, s.processed) == FirstOccurrences(schema, rest, s.processed);
  }

  // ---- An early crash that leaves a row ----------------------------------------------------------------------

  lemma {:induction false} FoldAppend(schema: Schema, subs: Subscriptions, ds: seq<Delivery>, d: Delivery)
    ensures Fold(schema, subs, ds + [d])
            == Handle(schema, Fold(schema, subs, ds), d.event.payload, d.target)
    decreases |ds|
  {
    if ds == [] {
      assert [d][1..] == [] && [] + [d] == [d];
    } else {
      assert (ds + [d])[1..] == ds[1..] + [d];
      FoldAppend(schema, Handle(schema, subs, ds[0].event.payload, ds[0].target), ds[1..], d);
    }
  }

  /** A delivery of an event not seen before counts after all others. */
  lemma {:induction false} NewIsCounted(schema: Schema, ds: seq<Delivery>, d: Delivery, seen: set<string>)
    requires !Inert(schema, d.event.payload) && d.crash != BeforeHandlerCommit && d.event.id !in seen
    requires forall k :: 0 <= k < |ds| ==> ds[k].event.id != d.event.id
    ensures FirstOccurrences(schema, ds + [d], seen) == FirstOccurrences(schema, ds, seen) + [d]
    decreases |ds|
  {
    if ds == [] {
      assert [d][1..] == [] && [] + [d] == [d];
    } else {
      assert (ds + [d])[1..] == ds[1..] + [d];
      assert forall k :: 0 <= k < |ds| - 1 ==> ds[1..][k] == ds[k + 1];
      NewIsCounted(schema, ds[1..], d, seen);
      NewIsCounted(schema, ds[1..], d, Mark(seen, ds[0].event.id));
    }
  }

  /** The rows agree but for the tenant's, which `a` has whenever `b` does. */
  predicate AgreeBut(a: Subscriptions, b: Subscriptions, tenant: string) {
    a - {tenant} == b - {tenant} && tenant in a
  }

  lemma HandleAgreesBut(schema: Schema, a: Subscriptions, b: Subscriptions, tenant: string, p: Payload,
                        target: Option<string>)
    requires AgreeBut(a, b, tenant) && Insertable(schema, tenant)
    ensures AgreeBut(Handle(schema, a, p, target), Handle(schema, b, p, target), tenant)
  {
    var a', b' := Handle(schema, a, p, target), Handle(schema, b, p, target);
    assert forall t :: t != tenant ==> (t in a <==> t in a - {tenant}) && (t in b <==> t in b - {tenant});
    assert forall t :: t != tenant && t in a ==> (a - {tenant})[t] == a[t];
    assert forall t :: t != tenant && t in b ==> (b - {tenant})[t] == b[t];
    assert forall t :: t != tenant ==> (t in a' <==> t in b') && (t in a' ==> a'[t] == b'[t]);
  }

  lemma {:induction false} FoldAgreesBut(schema: Schema, a: Subscriptions, b: Subscriptions, tenant: string,
                                         ds: seq<Delivery>)
    requires AgreeBut(a, b, tenant) && Insertable(schema, tenant)
    ensures AgreeBut(Fold(schema, a, ds), Fold(schema, b, ds), tenant)
    decreases |ds|
  {
    hide AgreeBut, Handle;
    if ds != [] {
      var p, t := ds[0].event.payload, ds[0].target;
      HandleAgreesBut(schema, a, b, tenant, p, t);
      FoldAgreesBut(schema, Handle(schema, a, p, t), Handle(schema, b, p, t), tenant, ds[1..]);
    }
  }

  function RowOr(subs: Subscriptions, tenant: string): Subscription {
    if tenant in subs then subs[tenant] else FREE
  }

  /** Everything of a subscription but the links a checkout sets. */
  predicate SameTerms(a: Subscription, b: Subscription) {
    a.planId == b.planId && a.status == b.status && a.currentPeriodEnd == b.currentPeriodEnd
  }

  predicate ChecksOut(p: Payload, tenant: string) {
    p.CheckoutCompleted? && p.tenantId == Some(tenant)
  }

  lemma CheckoutLevelsIff(schema: Schema, a: Subscriptions, b: Subscriptions, p: Payload, tenant: string,
                          target: Option<string>)
    requires ChecksOut(p, tenant) && tenant != "" && Insertable(schema, tenant) && AgreeBut(a, b, tenant)
    ensures Handle(schema, a, p, target) == Handle(schema, b, p, target)
            <==> SameTerms(RowOr(a, tenant), RowOr(b, tenant))
  {
    var a', b' := Handle(schema, a, p, target), Handle(schema, b, p, target);
    assert forall t :: t != tenant ==> (t in a <==> t in a - {tenant}) && (t in b <==> t in b - {tenant});
    assert forall t :: t != tenant && t in a ==> (a - {tenant})[t] == a[t];
    assert forall t :: t != tenant && t in b ==> (b - {tenant})[t] == b[t];
    assert a'.Keys == b'.Keys;
    assert forall t :: t != tenant && t in a' ==> a'[t] == b'[t];
    assert a'[tenant] == b'[tenant] <==> SameTerms(RowOr(a, tenant), RowOr(b, tenant));
  }

  lemma {:induction false} NoCheckoutNoRow(schema: Schema, subs: Subscriptions, tenant: string, ds: seq<Delivery>)
    requires tenant !in subs && forall k :: 0 <= k < |ds| ==> !ChecksOut(ds[k].event.payload, tenant)
    ensures tenant !in Fold(schema, subs, ds)
    decreases |ds|
  {
    if ds != [] {
      assert forall k :: 0 <= k < |ds| - 1 ==> ds[1..][k] == ds[k + 1];
      NoCheckoutNoRow(schema, Handle(schema, subs, ds[0].event.payload, ds[0].target), tenant, ds[1..]);
    }
  }

  lemma {:induction false} CountedAreDelivered(schema: Schema, ds: seq<Delivery>, seen: set<string>)
    ensures forall d :: d in FirstOccurrences(schema, ds, seen) ==> d in ds
    decreases |ds|
  {
    if ds != [] {
      CountedAreDelivered(schema, ds[1..], seen);
      CountedAreDelivered(schema, ds[1..], Mark(seen, ds[0].event.id));
    }
  }

  /** Handling each event once handles the checkout last. */
  lemma EarlyOnceEach(schema: Schema, s: State, first: Delivery, mid: seq<Delivery>, last: Delivery)
    requires first.event == last.event && first.crash == BeforeHandlerCommit && last.crash == Survives
    requires !Inert(schema, first.event.payload) && first.event.id !in s.processed
    requires forall k :: 0 <= k < |mid| ==> mid[k].event.id != first.event.id
    ensures Fold(schema, s.subs, FirstOccurrences(schema, [first] + mid + [last], s.processed))
            == Handle(schema, Fold(schema, s.subs, FirstOccurrences(schema, mid, s.processed)), last.event.payload,
                      last.target)
  {
    hide Handle;
    var rest := mid + [last];
    assert [first] + mid + [last] == [first] + rest && ([first] + rest)[1..] == rest;
    NewIsCounted(schema, mid, last, s.processed);
    FoldAppend(schema, s.subs, FirstOccurrences(schema, mid, s.processed), last);
  }

  /**
   A first checkout that dies once it has created the tenant's free row, deliveries of
   other events, then the checkout again: the outcome is that of handling each event once
   exactly when, by the time of the redelivery, plan, status and period of that row are
   those it would have had without the crash.  If nothing else checked the tenant out in
   between, those are the free plan's: no event may have taken the bare row for its own.
   */
  lemma EarlyRowIsHarmlessIff(schema: Schema, s: State, first: Delivery, mid: seq<Delivery>, last: Delivery,
                              tenant: string)
    requires Valid(schema, s.subs) && first.event == last.event && first.crash == BeforeHandlerCommit
    requires ChecksOut(first.event.payload, tenant) && tenant != "" && tenant !in s.subs && Insertable(schema, tenant)
    requires last.crash == Survives && first.event.id !in s.processed
    requires Orderly(schema, Deliver(schema, s, first), mid)
    requires forall k :: 0 <= k < |mid| ==> mid[k].event.id != first.event.id
    ensures var ds, stale := [first] + mid + [last], Run(schema, s, [first] + mid).subs;
            var uncrashed := Fold(schema, s.subs, FirstOccurrences(schema, mid, s.processed));
            && tenant in stale
            && (Run(schema, s, ds).subs == Fold(schema, s.subs, FirstOccurrences(schema, ds, s.processed))
                <==> SameTerms(stale[tenant], RowOr(uncrashed, tenant)))
            && ((forall k :: 0 <= k < |mid| ==> !ChecksOut(mid[k].event.payload, tenant)) ==>
                  RowOr(uncrashed, tenant) == FREE)
  {
    hide Orderly, Handle;
    var e, counted := first.event, FirstOccurrences(schema, mid, s.processed);
    var s1 := Deliver(schema, s, first);
    assert s1 == State(s.subs[tenant := FREE], s.processed);
    var s2, uncrashed := Run(schema, s1, mid), Fold(schema, s.subs, counted);
    assert ([first] + mid)[1..] == mid;
    RunAppend(schema, s, [first] + mid, last);
    OthersDoNotMark(schema, s1, mid, e.id);
    OrderlyIsExactlyOnce(schema, s1, mid);
    assert AgreeBut(s1.subs, s.subs, tenant);
    FoldAgreesBut(schema, s1.subs, s.subs, tenant, counted);
    CheckoutLevelsIff(schema, s2.subs, uncrashed, e.payload, tenant, last.target);
    EarlyOnceEach(schema, s, first, mid, last);
    if forall k :: 0 <= k < |mid| ==> !ChecksOut(mid[k].event.payload, tenant) {
      CountedAreDelivered(schema, mid, s.processed);
      assert forall k :: 0 <= k < |counted| ==> counted[k] in counted;
      NoCheckoutNoRow(schema, s.subs, tenant, counted);
    }
  }

  /** An input that fails: the subscription became active again before the stale event came back. */
  lemma LateRedeliveryOverwrites(schema: Schema, tenant: string)
    requires Insertable(schema, tenant)
    ensures var subs := map[tenant := FREE.(subscriptionId := Some("sub"))];
            var stale := Event("e1", SubscriptionChanged(Some("sub"), None, Some("past_due"), None, None));
            var newer := Event("e2", SubscriptionChanged(Some("sub"), None, Some("active"), None, None));
            var first, last := Delivery(stale, Some(tenant), BeforeMarker), Delivery(stale, Some(tenant), Survives);
            var ds := [first] + [Delivery(newer, Some(tenant), Survives)] + [last];
            && Possible(schema, State(subs, {}), ds)
            && Run(schema, State(subs, {}), ds).subs != Fold(schema, subs, FirstOccurrences(schema, ds, {}))
  {
    var subs := map[tenant := FREE.(subscriptionId := Some("sub"))];
    var stale := Event("e1", SubscriptionChanged(Some("sub"), None, Some("past_due"), None, None));
    var newer := Event("e2", SubscriptionChanged(Some("sub"), None, Some("active"), None, None));
    var first, last := Delivery(stale, Some(tenant), BeforeMarker), Delivery(stale, Some(tenant), Survives);
    var mid := [Delivery(newer, Some(tenant), Survives)];
    var s0 := State(subs, {});
    assert "e1"[1] != "e2"[1];
    LateRedeliveryIsHarmlessIff(schema, s0, first, mid, last);
    var s1 := Deliver(schema, s0, first);
    var s2 := Deliver(schema, s1, mid[0]);
    assert ([first] + mid)[1..] == mid && mid[1..] == [];
    assert Run(schema, s1, mid) == Run(schema, s2, []);
    assert Run(schema, s0, [first] + mid) == s2;
    assert s2.subs[tenant].status == "active" && "active"[0] != "past_due"[0];
    var ds := [first] + mid + [last];
    assert ds[1..][0] == mid[0] && ds[1..][1..][0] == last && ds[1..][1..][1..] == [];
    assert tenant in Carriers(subs, Some("sub")) && tenant in Carriers(s1.subs, Some("sub"))
           && tenant in Carriers(s2.subs, Some("sub"));
    assert Possible(schema, s2, ds[1..][1..]);
  }
}
