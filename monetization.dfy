/**
 * The subscription service exercised by the monetization unit tests: two
 * fixed plans, subscriptions kept in an insertion-ordered map, invoices,
 * payments and per-user usage counters. The clock (`Date.now`) and the
 * payment draw (`Math.random`) are parameters.
 */
module Monetization {
  import opened Util

  datatype Plan = Plan(
    id: string,
    name: string,
    monthly: real,
    yearly: real,
    features: seq<string>,
    limits: map<string, int>)

  datatype Status = Active | Trial | Cancelled | Expired

  datatype Subscription = Subscription(
    id: string,
    userId: string,
    planId: string,
    status: Status,
    startDate: int,
    endDate: Option<int>,
    autoRenewal: bool)

  datatype InvoiceStatus = Pending | Paid | Failed

  datatype Invoice = Invoice(
    id: string,
    subscriptionId: string,
    amount: real,
    status: InvoiceStatus,
    dueDate: int)

  const DayMs: int := 24 * 60 * 60 * 1000
  const TrialPeriod: int := 14 * DayMs
  const PaymentTerm: int := 30 * DayMs
  /** A payment succeeds when the draw is above this. */
  const FailureThreshold: real := 0.05
  /** A limit of -1 means unlimited. */
  const Unlimited: int := -1

  const PlanNotFound := "Plan not found"
  const SubscriptionNotFound := "Subscription not found"
  const InvoiceNotFound := "Invoice not found"

  const FreePlan := Plan("free", "Gratuit", 0.0, 0.0, ["basic_features"],
                         map["classrooms" := 2, "students" := 5, "storage_gb" := 1])
  const PremiumPlan := Plan("premium", "Premium", 29.99, 299.99, ["basic_features", "advanced_analytics", "api_access"],
                            map["classrooms" := Unlimited, "students" := 500, "storage_gb" := 100])

  /** The plans the constructor registers, in registration order; nothing changes them afterwards. */
  const Plans := [FreePlan, PremiumPlan]

  // ---------------------------------------------------------------------------
  // Plans
  // ---------------------------------------------------------------------------

  function FindPlan(plans: seq<Plan>, planId: string): (r: Option<Plan>)
    ensures r.Some? ==> r.value in plans && r.value.id == planId
    ensures r.None? <==> forall k :: 0 <= k < |plans| ==> plans[k].id != planId
  {
    if plans == [] then None
    else if plans[0].id == planId then Some(plans[0])
    else FindPlan(plans[1..], planId)
  }

  /** `getPlan`: the plan registered under the id, `null` when there is none. */
  function GetPlan(planId: string): (r: Option<Plan>)
    ensures r.Some? <==> planId == "free" || planId == "premium"
    ensures r.Some? ==> r.value.id == planId
  {
    assert |Plans| == 2 && Plans[0].id == "free" && Plans[1].id == "premium";
    FindPlan(Plans, planId)
  }

  /** `getPlans`: both plans, free then premium, each found again by its own id. */
  function GetPlans(): (r: seq<Plan>)
    ensures |r| == 2
    ensures r[0].id == "free" && r[1].id == "premium"
    ensures forall k :: 0 <= k < |r| ==> GetPlan(r[k].id) == Some(r[k])
  {
    Plans
  }

  // ---------------------------------------------------------------------------
  // Subscriptions in an insertion-ordered map
  // ---------------------------------------------------------------------------

  function SubscriptionId(now: int): string
  {
    "sub_" + IntToString(now)
  }

  /** Ids come from the clock alone: two subscriptions share one exactly when they are made at the same instant. */
  lemma SubscriptionIdsCollide(a: int, b: int)
    ensures SubscriptionId(a) == SubscriptionId(b) <==> a == b
  {
    if SubscriptionId(a) == SubscriptionId(b) {
      assert IntToString(a) == SubscriptionId(a)[4..];
      assert IntToString(b) == SubscriptionId(b)[4..];
      IntToStringInjective(a, b);
    }
  }

  /** The record `createSubscription` builds: the free plan starts active and open-ended, any other on a 14-day trial. */
  function NewSubscription(userId: string, planId: string, now: int): (s: Subscription)
    ensures s.id == SubscriptionId(now) && s.userId == userId && s.planId == planId
    ensures s.startDate == now && s.autoRenewal
    ensures s.status == Active <==> planId == "free"
    ensures s.status == Trial <==> planId != "free"
    ensures s.endDate.None? <==> planId == "free"
    ensures s.endDate.Some? ==> s.endDate.value - s.startDate == TrialPeriod
  {
    Subscription(SubscriptionId(now), userId, planId,
                 if planId == "free" then Active else Trial,
                 now,
                 if planId == "free" then None else Some(now + TrialPeriod),
                 true)
  }

  /**
   * The map's key order, one key per stored subscription, each stored
   * under its own id.
   */
  ghost predicate Ledger(order: seq<string>, subs: map<string, Subscription>)
  {
    && Distinct(order)
    && (forall k :: k in subs <==> k in order)
    && (forall k :: k in subs ==> subs[k].id == k)
  }

  /** `Map.set`: a new key goes last, a key already present keeps its place. */
  function PutOrder(order: seq<string>, subs: map<string, Subscription>, id: string): seq<string>
  {
    if id in subs then order else order + [id]
  }

  lemma PutKeepsLedger(order: seq<string>, subs: map<string, Subscription>, s: Subscription)
    requires Ledger(order, subs)
    ensures Ledger(PutOrder(order, subs, s.id), subs[s.id := s])
    ensures s.id in subs ==> PutOrder(order, subs, s.id) == order
    ensures s.id !in subs ==> PutOrder(order, subs, s.id) == order + [s.id]
  {
    if s.id !in subs {
      DistinctSnoc(order, s.id);
    }
  }

  predicate Matches(s: Subscription, userId: string, statuses: set<Status>)
  {
    s.userId == userId && s.status in statuses
  }

  /** The first stored subscription, in key order, of the user with one of the statuses. */
  function FirstWith(order: seq<string>, subs: map<string, Subscription>, userId: string, statuses: set<Status>)
    : Option<Subscription>
    requires forall k :: k in order ==> k in subs
  {
    if order == [] then None
    else if Matches(subs[order[0]], userId, statuses) then Some(subs[order[0]])
    else FirstWith(order[1..], subs, userId, statuses)
  }

  /** `FirstWith` finds a match exactly when there is one, and no earlier key matches. */
  lemma {:induction false} FirstWithFacts(order: seq<string>, subs: map<string, Subscription>, userId: string,
                                          statuses: set<Status>)
    requires forall k :: k in order ==> k in subs
    ensures var r := FirstWith(order, subs, userId, statuses);
            && (r.None? <==> forall i :: 0 <= i < |order| ==> !Matches(subs[order[i]], userId, statuses))
            && (r.Some? ==> exists i :: 0 <= i < |order| && subs[order[i]] == r.value
                              && Matches(r.value, userId, statuses)
                              && forall j :: 0 <= j < i ==> !Matches(subs[order[j]], userId, statuses))
  {
    if order != [] && !Matches(subs[order[0]], userId, statuses) {
      FirstWithFacts(order[1..], subs, userId, statuses);
      var r := FirstWith(order, subs, userId, statuses);
      if r.Some? {
        var i :| 0 <= i < |order[1..]| && subs[order[1..][i]] == r.value
                 && Matches(r.value, userId, statuses)
                 && forall j :: 0 <= j < i ==> !Matches(subs[order[1..][j]], userId, statuses);
        assert subs[order[i + 1]] == r.value;
        assert forall j :: 0 <= j < i + 1 ==> !Matches(subs[order[j]], userId, statuses) by {
          forall j | 0 <= j < i + 1 ensures !Matches(subs[order[j]], userId, statuses) {
            if j > 0 {
              assert order[j] == order[1..][j - 1];
            }
          }
        }
      } else {
        forall i | 0 <= i < |order| ensures !Matches(subs[order[i]], userId, statuses) {
          if i > 0 {
            assert order[i] == order[1..][i - 1];
          }
        }
      }
    }
  }

  /** Replacing or adding one key does not change the answer for a user who matched before it and still does not. */
  lemma {:induction false} FirstWithPut(order: seq<string>, subs: map<string, Subscription>, userId: string,
                                        statuses: set<Status>, s: Subscription)
    requires Ledger(order, subs)
    requires FirstWith(order, subs, userId, statuses).None?
    ensures Ledger(PutOrder(order, subs, s.id), subs[s.id := s])
    ensures FirstWith(PutOrder(order, subs, s.id), subs[s.id := s], userId, statuses)
            == if Matches(s, userId, statuses) then Some(s) else None
  {
    PutKeepsLedger(order, subs, s);
    var order' := PutOrder(order, subs, s.id);
    var subs' := subs[s.id := s];
    FirstWithFacts(order, subs, userId, statuses);
    FirstWithFacts(order', subs', userId, statuses);
    var r := FirstWith(order', subs', userId, statuses);
    assert forall i :: 0 <= i < |order'| && order'[i] != s.id ==> !Matches(subs'[order'[i]], userId, statuses) by {
      forall i | 0 <= i < |order'| && order'[i] != s.id ensures !Matches(subs'[order'[i]], userId, statuses) {
        assert subs'[order'[i]] == subs[order'[i]];
        assert order'[i] in order;
        var k :| 0 <= k < |order| && order[k] == order'[i];
      }
    }
    var at :| 0 <= at < |order'| && order'[at] == s.id;
    if Matches(s, userId, statuses) {
      assert subs'[order'[at]] == s;
      var i :| 0 <= i < |order'| && subs'[order'[i]] == r.value && Matches(r.value, userId, statuses);
    } else {
      assert forall i :: 0 <= i < |order'| ==> !Matches(subs'[order'[i]], userId, statuses);
    }
  }

  /** `getUserSubscription` only answers with a subscription whose status is active. */
  const LiveStatuses: set<Status> := {Active}

  /** A trial also counts as the user's current subscription: the statuses the tests expect to be found. */
  const CurrentStatuses: set<Status> := {Active, Trial}

  /**
   * As written, a user's freshly created paid subscription is a trial and is
   * not found by `getUserSubscription`, nor does it grant its features.
   */
  lemma NewPaidSubscriptionNotFoundAsWritten(order: seq<string>, subs: map<string, Subscription>, userId: string,
                                             planId: string, now: int)
    requires Ledger(order, subs) && planId != "free"
    requires FirstWith(order, subs, userId, LiveStatuses).None?
    ensures var s := NewSubscription(userId, planId, now);
            FirstWith(PutOrder(order, subs, s.id), subs[s.id := s], userId, LiveStatuses).None?
  {
    FirstWithPut(order, subs, userId, LiveStatuses, NewSubscription(userId, planId, now));
  }

  /** Counting trials as current, a user's freshly created subscription of any plan is the one found. */
  lemma NewSubscriptionIsCurrent(order: seq<string>, subs: map<string, Subscription>, userId: string,
                                 planId: string, now: int)
    requires Ledger(order, subs)
    requires FirstWith(order, subs, userId, CurrentStatuses).None?
    ensures var s := NewSubscription(userId, planId, now);
            FirstWith(PutOrder(order, subs, s.id), subs[s.id := s], userId, CurrentStatuses) == Some(s)
  {
    var s := NewSubscription(userId, planId, now);
    assert Matches(s, userId, CurrentStatuses);
    FirstWithPut(order, subs, userId, CurrentStatuses, s);
  }

  // ---------------------------------------------------------------------------
  // Features, limits and usage
  // ---------------------------------------------------------------------------

  /** `hasFeatureAccess` given the subscription found: its plan must exist and list the feature. */
  function Grants(sub: Option<Subscription>, feature: string): bool
  {
    sub.Some? && GetPlan(sub.value.planId).Some? && feature in GetPlan(sub.value.planId).value.features
  }

  /** Without a subscription nothing is granted; otherwise exactly the features of its plan. */
  lemma GrantsByPlan(sub: Option<Subscription>, feature: string)
    ensures sub.None? ==> !Grants(sub, feature)
    ensures sub.Some? && sub.value.planId == "free" ==> (Grants(sub, feature) <==> feature == "basic_features")
    ensures sub.Some? && sub.value.planId == "premium" ==>
              (Grants(sub, feature) <==> feature in {"basic_features", "advanced_analytics", "api_access"})
    ensures sub.Some? && GetPlan(sub.value.planId).None? ==> !Grants(sub, feature)
  {
  }

  /** `usage[metric] || 0`: a metric never tracked counts as zero. */
  function MetricTotal(record: map<string, real>, metric: string): real
  {
    if metric in record then record[metric] else 0.0
  }

  /** `trackUsage` on one user's record. */
  function Tracked(record: map<string, real>, metric: string, value: real): map<string, real>
  {
    record[metric := MetricTotal(record, metric) + value]
  }

  /** Several `trackUsage` calls in a row. */
  function TrackedAll(record: map<string, real>, metric: string, values: seq<real>): map<string, real>
    decreases |values|
  {
    if values == [] then record
    else Tracked(TrackedAll(record, metric, values[..|values| - 1]), metric, values[|values| - 1])
  }

  /** Tracking accumulates: the metric's total grows by the sum of the values, and no other metric changes. */
  lemma {:induction false} TrackingAccumulates(record: map<string, real>, metric: string, values: seq<real>)
    ensures MetricTotal(TrackedAll(record, metric, values), metric) == MetricTotal(record, metric) + SumReal(values)
    ensures forall m :: m != metric ==> MetricTotal(TrackedAll(record, metric, values), m) == MetricTotal(record, m)
    decreases |values|
  {
    if values != [] {
      TrackingAccumulates(record, metric, values[..|values| - 1]);
    }
  }

  function UsageOf(usage: map<string, map<string, real>>, userId: string): map<string, real>
  {
    if userId in usage then usage[userId] else map[]
  }

  /**
   * `checkUsageLimit` given the subscription found and the user's usage:
   * no subscription, no plan or no limit for the metric refuses; -1 allows
   * anything; otherwise the usage must be below the limit.
   */
  function WithinLimit(sub: Option<Subscription>, record: map<string, real>, metric: string): bool
  {
    if sub.None? || GetPlan(sub.value.planId).None? then false
    else
      var limits := GetPlan(sub.value.planId).value.limits;
      metric in limits && (limits[metric] == Unlimited || MetricTotal(record, metric) < limits[metric] as real)
  }

  /** The limit rules, and that using more of a metric never turns a refusal into an allowance. */
  lemma LimitRules(sub: Option<Subscription>, record: map<string, real>, metric: string, value: real)
    ensures sub.None? ==> !WithinLimit(sub, record, metric)
    ensures sub.Some? && GetPlan(sub.value.planId).Some? && metric in GetPlan(sub.value.planId).value.limits ==>
              var limit := GetPlan(sub.value.planId).value.limits[metric];
              && (limit == Unlimited ==> WithinLimit(sub, record, metric))
              && (limit != Unlimited ==> (WithinLimit(sub, record, metric) <==> MetricTotal(record, metric) < limit as real))
    ensures value >= 0.0 && !WithinLimit(sub, record, metric) ==> !WithinLimit(sub, Tracked(record, metric, value), metric)
  {
  }

  /** On the free plan two classrooms are the limit: one is allowed, two are not; premium classrooms are unlimited. */
  lemma ClassroomLimits(sub: Subscription, record: map<string, real>)
    ensures sub.planId == "free" ==>
              && WithinLimit(Some(sub), TrackedAll(map[], "classrooms", [1.0]), "classrooms")
              && !WithinLimit(Some(sub), TrackedAll(map[], "classrooms", [1.0, 1.0]), "classrooms")
    ensures sub.planId == "premium" ==> WithinLimit(Some(sub), record, "classrooms")
  {
    TrackingAccumulates(map[], "classrooms", [1.0]);
    TrackingAccumulates(map[], "classrooms", [1.0, 1.0]);
    assert [1.0, 1.0][..1] == [1.0];
  }

  // ---------------------------------------------------------------------------
  // Annual savings
  // ---------------------------------------------------------------------------

  /** The saving, in whole percent, of the yearly price over twelve monthly payments; 0 when either is 0. */
  function Savings(p: Plan): (r: int)
  {
    var annualMonthly := p.monthly * 12.0;
    if p.yearly == 0.0 || annualMonthly == 0.0 then 0
    else Round((annualMonthly - p.yearly) / annualMonthly * 100.0)
  }

  /** `calculateAnnualSavings`: 0 for an unknown plan. */
  function CalculateAnnualSavings(planId: string): (r: int)
    ensures GetPlan(planId).None? ==> r == 0
    ensures GetPlan(planId).Some? ==> r == Savings(GetPlan(planId).value)
  {
    match GetPlan(planId)
    case None => 0
    case Some(p) => Savings(p)
  }

  /** A yearly price between nothing and twelve months saves between 0 and 100 percent; a dearer one saves nothing or less. */
  lemma SavingsBounds(p: Plan)
    requires p.monthly > 0.0 && p.yearly != 0.0
    ensures 0.0 < p.yearly <= p.monthly * 12.0 ==> 0 <= Savings(p) <= 100
    ensures p.yearly > p.monthly * 12.0 ==> Savings(p) <= 0
  {
    var m := p.monthly * 12.0;
    var x := (m - p.yearly) / m;
    if 0.0 < p.yearly <= m {
      RatioInUnit(m - p.yearly, m);
    }
    if p.yearly > m {
      assert x < 0.0 by {
        assert (p.yearly - m) / m > 0.0 by { RatioPositive(p.yearly - m, m); }
        assert x == -((p.yearly - m) / m);
      }
    }
    assert Savings(p) == Round(x * 100.0);
  }

  /** The free plan saves nothing; premium saves 17 percent (299.99 against 12 x 29.99 = 359.88). */
  lemma KnownSavings()
    ensures CalculateAnnualSavings("free") == 0
    ensures CalculateAnnualSavings("premium") == 17
    ensures CalculateAnnualSavings("gold") == 0
  {
    var x := (359.88 - 299.99) / 359.88 * 100.0;
    assert 16.5 <= x < 17.5;
    assert Savings(PremiumPlan) == Round(x);
  }

  // ---------------------------------------------------------------------------
  // The service
  // ---------------------------------------------------------------------------

  class MonetizationService {
    /** The subscriptions Map, with `order` its key order. */
    var subscriptions: map<string, Subscription>
    var order: seq<string>
    var invoices: map<string, Invoice>
    var usage: map<string, map<string, real>>

    ghost predicate Valid()
      reads this
    {
      Ledger(order, subscriptions)
    }

    constructor ()
      ensures Valid()
      ensures subscriptions == map[] && order == [] && invoices == map[] && usage == map[]
    {
      subscriptions := map[];
      order := [];
      invoices := map[];
      usage := map[];
    }

    /** `createSubscription`: stores the new subscription under its id and resets the user's usage. */
    method CreateSubscription(userId: string, planId: string, now: int) returns (r: Result<Subscription>)
      requires Valid()
      modifies this`subscriptions, this`order, this`usage
      ensures Valid()
      ensures r.Err? <==> GetPlan(planId).None?
      ensures r.Err? ==> r.msg == PlanNotFound && unchanged(this)
      ensures r.Ok? ==>
                && r.value == NewSubscription(userId, planId, now)
                && subscriptions == old(subscriptions)[r.value.id := r.value]
                && order == PutOrder(old(order), old(subscriptions), r.value.id)
                && usage == old(usage)[userId := map[]]
    {
      var plan := GetPlan(planId);
      if plan.None? {
        return Err(PlanNotFound);
      }
      var subscription := NewSubscription(userId, planId, now);
      PutKeepsLedger(order, subscriptions, subscription);
      order := PutOrder(order, subscriptions, subscription.id);
      subscriptions := subscriptions[subscription.id := subscription];
      usage := usage[userId := map[]];
      r := Ok(subscription);
    }

    /** `getUserSubscription`: the first subscription, in key order, of the user whose status is active. */
    method GetUserSubscription(userId: string) returns (r: Option<Subscription>)
      requires Valid()
      ensures r == FirstWith(order, subscriptions, userId, LiveStatuses)
    {
      var i := 0;
      while i < |order|
        invariant 0 <= i <= |order|
        invariant FirstWith(order[i..], subscriptions, userId, LiveStatuses)
                  == FirstWith(order, subscriptions, userId, LiveStatuses)
      {
        var subscription := subscriptions[order[i]];
        if subscription.userId == userId && subscription.status == Active {
          return Some(subscription);
        }
        assert order[i..][1..] == order[i + 1..];
        i := i + 1;
      }
      return None;
    }

    /** `upgradeSubscription`: the subscription must exist, then the plan; it moves to the plan and becomes active. */
    method UpgradeSubscription(subscriptionId: string, newPlanId: string) returns (r: Result<Subscription>)
      requires Valid()
      modifies this`subscriptions
      ensures Valid()
      ensures r.Err? <==> subscriptionId !in old(subscriptions) || GetPlan(newPlanId).None?
      ensures r.Err? ==>
                && r.msg == (if subscriptionId !in old(subscriptions) then SubscriptionNotFound else PlanNotFound)
                && subscriptions == old(subscriptions)
      ensures r.Ok? ==>
                && r.value == old(subscriptions)[subscriptionId].(planId := newPlanId, status := Active)
                && subscriptions == old(subscriptions)[subscriptionId := r.value]
    {
      if subscriptionId !in subscriptions {
        return Err(SubscriptionNotFound);
      }
      var subscription := subscriptions[subscriptionId];
      var newPlan := GetPlan(newPlanId);
      if newPlan.None? {
        return Err(PlanNotFound);
      }
      subscription := subscription.(planId := newPlanId, status := Active);
      subscriptions := subscriptions[subscriptionId := subscription];
      r := Ok(subscription);
    }

    /** `cancelSubscription`: cancelled, and no longer renewing. */
    method CancelSubscription(subscriptionId: string) returns (r: Result<Subscription>)
      requires Valid()
      modifies this`subscriptions
      ensures Valid()
      ensures r.Err? <==> subscriptionId !in old(subscriptions)
      ensures r.Err? ==> r.msg == SubscriptionNotFound && subscriptions == old(subscriptions)
      ensures r.Ok? ==>
                && r.value == old(subscriptions)[subscriptionId].(status := Cancelled, autoRenewal := false)
                && subscriptions == old(subscriptions)[subscriptionId := r.value]
    {
      if subscriptionId !in subscriptions {
        return Err(SubscriptionNotFound);
      }
      var subscription := subscriptions[subscriptionId];
      subscription := subscription.(status := Cancelled, autoRenewal := false);
      subscriptions := subscriptions[subscriptionId := subscription];
      r := Ok(subscription);
    }

    /** `createInvoice`: one month of the subscription's plan, due in 30 days. */
    method CreateInvoice(subscriptionId: string, now: int) returns (r: Result<Invoice>)
      modifies this`invoices
      ensures r.Err? <==> subscriptionId !in subscriptions || GetPlan(subscriptions[subscriptionId].planId).None?
      ensures r.Err? ==>
                && r.msg == (if subscriptionId !in subscriptions then SubscriptionNotFound else PlanNotFound)
                && invoices == old(invoices)
      ensures r.Ok? ==>
                var plan := GetPlan(subscriptions[subscriptionId].planId).value;
                && r.value == Invoice("inv_" + IntToString(now), subscriptionId, plan.monthly, Pending, now + PaymentTerm)
                && invoices == old(invoices)[r.value.id := r.value]
    {
      if subscriptionId !in subscriptions {
        return Err(SubscriptionNotFound);
      }
      var plan := GetPlan(subscriptions[subscriptionId].planId);
      if plan.None? {
        return Err(PlanNotFound);
      }
      var invoice := Invoice("inv_" + IntToString(now), subscriptionId, plan.value.monthly, Pending, now + PaymentTerm);
      invoices := invoices[invoice.id := invoice];
      r := Ok(invoice);
    }

    /** `processPayment`: a draw above 0.05 pays the invoice, any other fails it. */
    method ProcessPayment(invoiceId: string, draw: real) returns (r: Result<bool>)
      modifies this`invoices
      ensures r.Err? <==> invoiceId !in old(invoices)
      ensures r.Err? ==> r.msg == InvoiceNotFound && invoices == old(invoices)
      ensures r.Ok? ==>
                && (r.value <==> draw > FailureThreshold)
                && invoices == old(invoices)[invoiceId := old(invoices)[invoiceId].(status := if r.value then Paid else Failed)]
    {
      if invoiceId !in invoices {
        return Err(InvoiceNotFound);
      }
      var invoice := invoices[invoiceId];
      var success := draw > FailureThreshold;
      invoice := invoice.(status := if success then Paid else Failed);
      invoices := invoices[invoiceId := invoice];
      r := Ok(success);
    }

    /** `trackUsage`: adds the value to the metric's running total for the user. */
    method TrackUsage(userId: string, metric: string, value: real)
      modifies this`usage
      ensures usage == old(usage)[userId := Tracked(UsageOf(old(usage), userId), metric, value)]
    {
      var record := UsageOf(usage, userId);
      record := record[metric := MetricTotal(record, metric) + value];
      usage := usage[userId := record];
    }

    /** `getUsage`: the user's record, empty for a user never seen. */
    function GetUsage(userId: string): map<string, real>
      reads this
    {
      UsageOf(usage, userId)
    }

    /** `hasFeatureAccess`: the active subscription found must have a plan listing the feature. */
    method HasFeatureAccess(userId: string, feature: string) returns (b: bool)
      requires Valid()
      ensures b == Grants(FirstWith(order, subscriptions, userId, LiveStatuses), feature)
    {
      var subscription := GetUserSubscription(userId);
      if subscription.None? {
        return false;
      }
      var plan := GetPlan(subscription.value.planId);
      b := plan.Some? && feature in plan.value.features;
    }

    /** `checkUsageLimit`: the rules of `WithinLimit` for the active subscription found and the user's usage. */
    method CheckUsageLimit(userId: string, metric: string) returns (b: bool)
      requires Valid()
      ensures b == WithinLimit(FirstWith(order, subscriptions, userId, LiveStatuses), GetUsage(userId), metric)
    {
      var subscription := GetUserSubscription(userId);
      if subscription.None? {
        return false;
      }
      var plan := GetPlan(subscription.value.planId);
      if plan.None? {
        return false;
      }
      if metric !in plan.value.limits {
        return false;
      }
      var limit := plan.value.limits[metric];
      if limit == Unlimited {
        return true;
      }
      var record := GetUsage(userId);
      b := MetricTotal(record, metric) < limit as real;
    }
  }
}
