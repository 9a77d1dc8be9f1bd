/** Webhook convergence: a projection that reaches the same money whatever the order and the
    number of deliveries, and the failure scenarios it is meant to survive. */
module Convergence {
  import opened Domain

  datatype Scenario = DuplicateWebhook | OutOfOrderWebhook | LateSuccess | ChangedAuthoritativeState

  /** A derived id: injective in everything it is derived from. */
  datatype StableId = StableId(seed: int, scenario: Scenario, tag: string)

  /** What the projection reads of a delivery. */
  datatype News = News(
    eventId: StableId, occurredAt: int, authoritative: PaymentState, paymentId: StableId, amountPaise: int)

  datatype Delivery = Delivery(deliveryId: StableId, deliveredAt: int, observed: PaymentState, news: News)

  datatype Projection = Projection(
    payment: PaymentState, arrearsPaise: int, latest: Option<int>, events: set<StableId>, recognized: set<StableId>)

  datatype Effect = Effect(eventId: StableId, duplicate: bool, stale: bool, payment: PaymentState, revenueRecorded: bool)

  const Nothing := Projection(PaymentUnknown, 0, None, {}, {})

  predicate Records(p: Projection, n: News) {
    n.eventId !in p.events && n.authoritative == Captured && n.paymentId !in p.recognized
  }

  function Applied(p: Projection, n: News): Projection {
    if n.eventId in p.events then p
    else
      Projection(
        if p.payment == Captured then Captured else n.authoritative,
        p.arrearsPaise + if Records(p, n) then n.amountPaise else 0,
        if p.latest.Some? && n.occurredAt < p.latest.value then p.latest else Some(n.occurredAt),
        p.events + {n.eventId},
        p.recognized + if Records(p, n) then {n.paymentId} else {})
  }

  class PaymentEventProjection {
    var payment: PaymentState
    var arrearsPaise: int
    var latestOccurredAt: Option<int>
    var providerEventIds: set<StableId>
    var recognizedPaymentIds: set<StableId>

    constructor ()
      ensures Abs() == Nothing
    {
      payment, arrearsPaise, latestOccurredAt, providerEventIds, recognizedPaymentIds := PaymentUnknown, 0, None, {}, {};
    }

    function Abs(): Projection
      reads this
    {
      Projection(payment, arrearsPaise, latestOccurredAt, providerEventIds, recognizedPaymentIds)
    }

    method Apply(d: Delivery) returns (e: Effect)
      modifies this
      ensures Abs() == Applied(old(Abs()), d.news)
      ensures e.duplicate ==> Abs() == old(Abs())
      ensures !e.duplicate ==>
        && payment == (if old(payment) == Captured then Captured else d.news.authoritative)
        && providerEventIds == old(providerEventIds) + {d.news.eventId}
        && latestOccurredAt == (if e.stale then old(latestOccurredAt) else Some(d.news.occurredAt))
      ensures arrearsPaise == old(arrearsPaise) + if e.revenueRecorded then d.news.amountPaise else 0
      ensures recognizedPaymentIds == old(recognizedPaymentIds) + if e.revenueRecorded then {d.news.paymentId} else {}
      ensures e.eventId == d.news.eventId && e.payment == payment
      ensures e.duplicate <==> d.news.eventId in old(providerEventIds)
      ensures e.revenueRecorded <==>
        !e.duplicate && d.news.authoritative == Captured && d.news.paymentId !in old(recognizedPaymentIds)
      ensures e.stale <==> !e.duplicate && old(latestOccurredAt).Some? && d.news.occurredAt < old(latestOccurredAt).value
    {
      if d.news.eventId in providerEventIds { return Effect(d.news.eventId, true, false, payment, false); }
      providerEventIds := providerEventIds + {d.news.eventId};
      var stale := latestOccurredAt.Some? && d.news.occurredAt < latestOccurredAt.value;
      if !stale { latestOccurredAt := Some(d.news.occurredAt); }
      var authoritative := d.news.authoritative;
      if payment != Captured || authoritative == Captured { payment := authoritative; }
      var recorded := false;
      if authoritative == Captured && d.news.paymentId !in recognizedPaymentIds {
        recognizedPaymentIds := recognizedPaymentIds + {d.news.paymentId};
        arrearsPaise := arrearsPaise + d.news.amountPaise;
        recorded := true;
      }
      return Effect(d.news.eventId, false, stale, payment, recorded);
    }
  }

  function Project(p: Projection, ds: seq<Delivery>): Projection
    decreases |ds|
  {
    if ds == [] then p else Project(Applied(p, ds[0].news), ds[1..])
  }

  /** How many of the deliveries record revenue. */
  function Recordings(p: Projection, ds: seq<Delivery>): nat
    decreases |ds|
  {
    if ds == [] then 0 else (if Records(p, ds[0].news) then 1 else 0) + Recordings(Applied(p, ds[0].news), ds[1..])
  }

  function Contents(ds: seq<Delivery>): set<News> { set d | d in ds :: d.news }

  /** An event id fixes its content. */
  ghost predicate EventsFixContent(news: set<News>) {
    forall m, n | m in news && n in news && m.eventId == n.eventId :: m == n
  }

  /** A payment id fixes its amount. */
  ghost predicate Priced(news: set<News>, amounts: map<StableId, int>) {
    forall n | n in news && n.authoritative == Captured :: n.paymentId in amounts && n.amountPaise == amounts[n.paymentId]
  }

  ghost function CapturedPayments(news: set<News>): set<StableId> {
    set n | n in news && n.authoritative == Captured :: n.paymentId
  }

  ghost function Total(ids: set<StableId>, amounts: map<StableId, int>): int
    requires ids <= amounts.Keys
    decreases |ids|
  {
    if ids == {} then 0 else
      var id :| id in ids;
      amounts[id] + Total(ids - {id}, amounts)
  }

  lemma {:induction false} TotalWithout(ids: set<StableId>, amounts: map<StableId, int>, x: StableId)
    requires ids <= amounts.Keys && x in ids
    ensures Total(ids, amounts) == amounts[x] + Total(ids - {x}, amounts)
    decreases |ids|
  {
    var id :| id in ids && Total(ids, amounts) == amounts[id] + Total(ids - {id}, amounts);
    if id != x {
      TotalWithout(ids - {id}, amounts, x);
      TotalWithout(ids - {x}, amounts, id);
      assert ids - {id} - {x} == ids - {x} - {id};
    }
  }

  ghost predicate IsNewest(latest: Option<int>, news: set<News>) {
    if news == {} then latest.None?
    else latest.Some? && (exists n :: n in news && n.occurredAt == latest.value) && forall n | n in news :: n.occurredAt <= latest.value
  }

  /** What the projection holds once it has seen exactly the given news. */
  ghost predicate Reflects(p: Projection, news: set<News>, amounts: map<StableId, int>) {
    && p.events == (set n | n in news :: n.eventId)
    && p.recognized == CapturedPayments(news)
    && p.recognized <= amounts.Keys && p.arrearsPaise == Total(p.recognized, amounts)
    && (p.payment == Captured <==> exists n :: n in news && n.authoritative == Captured)
    && (news == {} ==> p.payment == PaymentUnknown)
    && (news != {} ==> exists n :: n in news && p.payment == n.authoritative)
  }

  lemma AppliedReflects(p: Projection, news: set<News>, amounts: map<StableId, int>, n: News)
    requires Reflects(p, news, amounts) && EventsFixContent(news + {n}) && Priced(news + {n}, amounts)
    ensures Reflects(Applied(p, n), news + {n}, amounts)
  {
    var q := Applied(p, n);
    if n.eventId in p.events {
      assert n in news;
      assert news + {n} == news;
    } else {
      assert CapturedPayments(news + {n}) == CapturedPayments(news) + if n.authoritative == Captured then {n.paymentId} else {};
      if Records(p, n) {
        TotalWithout(q.recognized, amounts, n.paymentId);
        assert q.recognized - {n.paymentId} == p.recognized;
      } else {
        assert q.recognized == p.recognized;
      }
      assert n in news + {n};
    }
  }

  lemma {:induction false} ProjectReflects(p: Projection, news: set<News>, amounts: map<StableId, int>, ds: seq<Delivery>)
    requires Reflects(p, news, amounts)
    requires EventsFixContent(news + Contents(ds)) && Priced(news + Contents(ds), amounts)
    ensures Reflects(Project(p, ds), news + Contents(ds), amounts)
    decreases |ds|
  {
    if ds == [] {
      assert news + Contents(ds) == news;
    } else {
      var n := ds[0].news;
      assert ds == [ds[0]] + ds[1..];
      assert Contents(ds) == {n} + Contents(ds[1..]);
      assert news + Contents(ds) == (news + {n}) + Contents(ds[1..]);
      AppliedReflects(p, news, amounts, n);
      ProjectReflects(Applied(p, n), news + {n}, amounts, ds[1..]);
    }
  }

  lemma {:induction false} ProjectKeepsNewest(p: Projection, news: set<News>, ds: seq<Delivery>)
    requires p.events == (set n | n in news :: n.eventId) && IsNewest(p.latest, news)
    requires EventsFixContent(news + Contents(ds))
    ensures IsNewest(Project(p, ds).latest, news + Contents(ds))
    decreases |ds|
  {
    if ds == [] {
      assert news + Contents(ds) == news;
    } else {
      var n := ds[0].news;
      assert ds == [ds[0]] + ds[1..];
      assert Contents(ds) == {n} + Contents(ds[1..]);
      assert news + Contents(ds) == (news + {n}) + Contents(ds[1..]);
      AppliedKeepsNewest(p, news, n);
      ProjectKeepsNewest(Applied(p, n), news + {n}, ds[1..]);
    }
  }

  lemma AppliedKeepsNewest(p: Projection, news: set<News>, n: News)
    requires p.events == (set n | n in news :: n.eventId) && IsNewest(p.latest, news) && EventsFixContent(news + {n})
    ensures Applied(p, n).events == (set m | m in news + {n} :: m.eventId) && IsNewest(Applied(p, n).latest, news + {n})
  {
    assert n in news + {n};
    if n.eventId in p.events {
      assert n in news;
      assert news + {n} == news;
    } else if news != {} {
      var m :| m in news && m.occurredAt == p.latest.value;
      assert m in news + {n};
    }
  }

  /** Every reordering and duplication of the same deliveries recognizes the same payments and
      collects the same arrears, and agrees on whether the payment is captured and on the newest
      instant seen. */
  lemma DeliveryOrderDoesNotMatter(ds: seq<Delivery>, es: seq<Delivery>, amounts: map<StableId, int>)
    requires Contents(ds) == Contents(es) && EventsFixContent(Contents(ds)) && Priced(Contents(ds), amounts)
    ensures var p, q := Project(Nothing, ds), Project(Nothing, es);
            && p.recognized == q.recognized == CapturedPayments(Contents(ds))
            && p.arrearsPaise == q.arrearsPaise == Total(p.recognized, amounts)
            && p.events == q.events && p.latest == q.latest && IsNewest(p.latest, Contents(ds))
            && (p.payment == Captured <==> q.payment == Captured)
  {
    ProjectReflects(Nothing, {}, amounts, ds);
    ProjectReflects(Nothing, {}, amounts, es);
    ProjectKeepsNewest(Nothing, {}, ds);
    ProjectKeepsNewest(Nothing, {}, es);
    assert {} + Contents(ds) == Contents(ds);
  }

  /** A captured delivery anywhere forces a final CAPTURED. */
  lemma AnyCaptureIsFinal(ds: seq<Delivery>, amounts: map<StableId, int>, d: Delivery)
    requires EventsFixContent(Contents(ds)) && Priced(Contents(ds), amounts)
    requires d in ds && d.news.authoritative == Captured
    ensures Project(Nothing, ds).payment == Captured && d.news.paymentId in Project(Nothing, ds).recognized
  {
    ProjectReflects(Nothing, {}, amounts, ds);
    assert {} + Contents(ds) == Contents(ds);
    assert d.news in Contents(ds);
  }

  /** Over any deliveries at all, exactly one delivery records revenue for each recognized
      payment. */
  lemma {:induction false} OneRecordingPerPayment(p: Projection, ds: seq<Delivery>)
    ensures |Project(p, ds).recognized| == |p.recognized| + Recordings(p, ds)
    decreases |ds|
  {
    if ds != [] { OneRecordingPerPayment(Applied(p, ds[0].news), ds[1..]); }
  }

  // ------------------------------------------------------------------ scenarios

  const MINUTE := 60_000_000
  const SECOND := 1_000_000

  datatype SimulationCase = SimulationCase(
    deliveries: seq<Delivery>, expectedPayment: PaymentState, expectedRevenueEntries: nat)

  /** `jitter` is the seeded delay before the first delivery. */
  function BuildFailureScenario(scenario: Scenario, seed: int, base: int, jitter: int, amount: int): SimulationCase {
    var payment := StableId(seed, scenario, "payment");
    var failedAt, capturedAt := base, base + 45 * MINUTE;
    var failed := News(StableId(seed, scenario, "failed"), failedAt, PaymentFailed, payment, amount);
    var captured := News(StableId(seed, scenario, "captured"), capturedAt, Captured, payment, amount);
    var failedButCaptured := failed.(authoritative := Captured);
    var first, second := StableId(seed, scenario, "delivery:0"), StableId(seed, scenario, "delivery:1");
    match scenario
    case DuplicateWebhook =>
      SimulationCase([Delivery(first, failedAt + jitter, PaymentFailed, failed),
                      Delivery(second, failedAt + jitter + 2 * SECOND, PaymentFailed, failed)], PaymentFailed, 0)
    case OutOfOrderWebhook =>
      SimulationCase([Delivery(first, capturedAt + jitter, Captured, captured),
                      Delivery(second, capturedAt + jitter + 2 * SECOND, PaymentFailed, failedButCaptured)], Captured, 1)
    case LateSuccess =>
      SimulationCase([Delivery(first, failedAt + jitter, PaymentFailed, failed),
                      Delivery(second, capturedAt + 30 * MINUTE + jitter, Captured, captured)], Captured, 1)
    case ChangedAuthoritativeState =>
      SimulationCase([Delivery(first, capturedAt + jitter, PaymentFailed, failedButCaptured)], Captured, 1)
  }

  /** Every scenario reaches its declared final state and revenue count, and collects the
      amount that many times, under every reordering and duplication of its deliveries. */
  lemma ScenariosConverge(scenario: Scenario, seed: int, base: int, jitter: int, amount: int, ds: seq<Delivery>)
    requires Contents(ds) == Contents(BuildFailureScenario(scenario, seed, base, jitter, amount).deliveries)
    ensures var expected := BuildFailureScenario(scenario, seed, base, jitter, amount);
            var p := Project(Nothing, ds);
            && p.payment == expected.expectedPayment
            && |p.recognized| == expected.expectedRevenueEntries == Recordings(Nothing, ds)
            && p.arrearsPaise == expected.expectedRevenueEntries * amount
  {
    var payment := StableId(seed, scenario, "payment");
    var amounts := map[payment := amount];
    var expected := BuildFailureScenario(scenario, seed, base, jitter, amount);
    var news := Contents(ds);
    ScenarioNews(scenario, seed, base, jitter, amount);
    ProjectReflects(Nothing, {}, amounts, ds);
    assert {} + news == news;
    OneRecordingPerPayment(Nothing, ds);
    if expected.expectedRevenueEntries == 1 {
      assert CapturedPayments(news) == {payment};
      TotalWithout({payment}, amounts, payment);
      assert {payment} - {payment} == {};
    } else {
      assert CapturedPayments(news) == {};
    }
  }

  lemma ScenarioNews(scenario: Scenario, seed: int, base: int, jitter: int, amount: int)
    ensures var c := BuildFailureScenario(scenario, seed, base, jitter, amount);
            var payment := StableId(seed, scenario, "payment");
            && EventsFixContent(Contents(c.deliveries)) && Priced(Contents(c.deliveries), map[payment := amount])
            && Contents(c.deliveries) != {}
            && (c.expectedRevenueEntries == 1 <==> exists n :: n in Contents(c.deliveries) && n.authoritative == Captured)
            && (c.expectedRevenueEntries == 1 ==> CapturedPayments(Contents(c.deliveries)) == {payment})
            && (c.expectedRevenueEntries == 0 || c.expectedRevenueEntries == 1)
            && (c.expectedRevenueEntries == 0 ==>
                  forall n | n in Contents(c.deliveries) :: n.authoritative == c.expectedPayment == PaymentFailed)
            && (c.expectedRevenueEntries == 1 ==> c.expectedPayment == Captured)
  {
    var c := BuildFailureScenario(scenario, seed, base, jitter, amount);
    assert c.deliveries[0].news in Contents(c.deliveries);
    if |c.deliveries| == 2 {
      assert Contents(c.deliveries) == {c.deliveries[0].news, c.deliveries[1].news};
      assert "failed" != "captured";
    } else {
      assert Contents(c.deliveries) == {c.deliveries[0].news};
    }
  }
}
