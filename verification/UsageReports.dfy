/** Metered usage: pricing in wrapping 256-bit arithmetic, the usage report loop, and exactness of a
    session's total cost. */
module UsageReports {
  import opened Basics
  import opened Arithmetic
  import opened Ledger
  import opened Protocol
  import opened Gateway

  // ---- Pricing ----

  datatype Pricing = Pricing(perBlock: Grt, perByte: Grt)

  function MulGrt(price: Grt, n: nat): Grt {
    price * n % U256
  }

  function AddGrt(a: Grt, b: Grt): Grt {
    (a + b) % U256
  }

  /** `CalculateUsageCost`, with the wrap-around of the 256-bit type. */
  function UsageCost(p: Pricing, blocks: nat, bytes: nat): Grt {
    AddGrt(MulGrt(p.perBlock, blocks), MulGrt(p.perByte, bytes))
  }

  function ExactCost(p: Pricing, blocks: nat, bytes: nat): nat {
    p.perBlock * blocks + p.perByte * bytes
  }

  lemma CostWrapsSum(p: Pricing, blocks: nat, bytes: nat)
    ensures UsageCost(p, blocks, bytes) == ExactCost(p, blocks, bytes) % U256
  {
    ModSum(p.perBlock * blocks, p.perByte * bytes, U256);
  }

  lemma CostBounded(p: Pricing, blocks: nat, bytes: nat)
    requires blocks < U64 && bytes < U64
    ensures ExactCost(p, blocks, bytes) <= ExactCost(p, U64 - 1, U64 - 1) == (p.perBlock + p.perByte) * (U64 - 1)
  {
    MulMono(p.perBlock, blocks, U64 - 1);
    MulMono(p.perByte, bytes, U64 - 1);
    Distribute(p.perBlock, p.perByte, 0, U64 - 1);
  }

  lemma CostExact(p: Pricing, blocks: nat, bytes: nat)
    ensures UsageCost(p, blocks, bytes) == ExactCost(p, blocks, bytes) <==> ExactCost(p, blocks, bytes) < U256
  {
    CostWrapsSum(p, blocks, bytes);
  }

  /** No pair of uint64 counters can wrap the cost exactly when the two unit prices stay below 2^256
      divided by the largest counter; prices that sum to at most 2^192 do. */
  lemma PricesNeverWrap(p: Pricing)
    ensures (p.perBlock + p.perByte) * (U64 - 1) < U256 <==>
              forall blocks: nat, bytes: nat :: blocks < U64 && bytes < U64 ==>
                  UsageCost(p, blocks, bytes) == ExactCost(p, blocks, bytes)
    ensures p.perBlock + p.perByte <= U64 * U128 ==> (p.perBlock + p.perByte) * (U64 - 1) < U256
  {
    CostBounded(p, U64 - 1, U64 - 1);
    CostExact(p, U64 - 1, U64 - 1);
    if (p.perBlock + p.perByte) * (U64 - 1) < U256 {
      forall blocks: nat, bytes: nat | blocks < U64 && bytes < U64
        ensures UsageCost(p, blocks, bytes) == ExactCost(p, blocks, bytes)
      {
        CostBounded(p, blocks, bytes);
        CostExact(p, blocks, bytes);
      }
    }
  }

  // ---- Events ----

  const I63: nat := 0x8000_0000_0000_0000

  /** int64 arithmetic wraps. */
  function WrapI64(x: int): int {
    (x + I63) % U64 - I63
  }

  lemma WrapTwice(a: int, b: int)
    ensures WrapI64(WrapI64(a) + b) == WrapI64(a + b)
  {
    var q, r := (a + I63) / U64, (a + I63) % U64;
    var q', r' := (r + b) / U64, (r + b) % U64;
    assert a + b + I63 == (q + q') * U64 + r';
    DivModUnique(a + b + I63, q + q', r', U64);
  }

  datatype Metric = Metric(name: string, value: int)

  datatype Kind = BlocksMetric | BytesMetric | RequestsMetric | OtherMetric

  function KindOf(name: string): Kind {
    if name == "blocks_count" || name == "blocks" || name == "block_count" || name == "message_count" then BlocksMetric
    else if name == "bytes_count" || name == "bytes" || name == "egress_bytes" then BytesMetric
    else if name == "requests_count" || name == "requests" then RequestsMetric
    else OtherMetric
  }

  /** The unbounded sum of the metrics of one kind; a nil metric counts for nothing. */
  function Sum(metrics: seq<Option<Metric>>, kind: Kind): int {
    if metrics == [] then 0
    else
      var last := metrics[|metrics| - 1];
      var counts := last.Some? && KindOf(last.value.name) == kind;
      Sum(metrics[..|metrics| - 1], kind) + if counts then last.value.value else 0
  }

  datatype UsageEvent = UsageEvent(blocks: int, bytes: int, requests: int)

  function Sanitize(v: int): nat {
    if v <= 0 then 0 else v
  }

  /** `SanitizedTotals`. */
  function SanitizedTotals(e: UsageEvent): Counters {
    Counters(Sanitize(e.blocks), Sanitize(e.bytes), Sanitize(e.requests))
  }

  /** What one event adds: its metric sums, wrapped once and clamped at zero. */
  function EventTotals(metrics: seq<Option<Metric>>): Counters {
    SanitizedTotals(UsageEvent(WrapI64(Sum(metrics, BlocksMetric)), WrapI64(Sum(metrics, BytesMetric)),
                               WrapI64(Sum(metrics, RequestsMetric))))
  }

  /** `protoEventToUsageEvent`: accumulating in wrapping arithmetic wraps the whole sum. */
  method ToUsageEvent(metrics: seq<Option<Metric>>) returns (e: UsageEvent)
    ensures e.blocks == WrapI64(Sum(metrics, BlocksMetric))
    ensures e.bytes == WrapI64(Sum(metrics, BytesMetric))
    ensures e.requests == WrapI64(Sum(metrics, RequestsMetric))
  {
    e := UsageEvent(0, 0, 0);
    for i := 0 to |metrics|
      invariant e.blocks == WrapI64(Sum(metrics[..i], BlocksMetric))
      invariant e.bytes == WrapI64(Sum(metrics[..i], BytesMetric))
      invariant e.requests == WrapI64(Sum(metrics[..i], RequestsMetric))
    {
      assert metrics[..i + 1][..i] == metrics[..i];
      if metrics[i].Some? {
        var m := metrics[i].value;
        WrapTwice(Sum(metrics[..i], BlocksMetric), m.value);
        WrapTwice(Sum(metrics[..i], BytesMetric), m.value);
        WrapTwice(Sum(metrics[..i], RequestsMetric), m.value);
        match KindOf(m.name) {
          case BlocksMetric => e := e.(blocks := WrapI64(e.blocks + m.value));
          case BytesMetric => e := e.(bytes := WrapI64(e.bytes + m.value));
          case RequestsMetric => e := e.(requests := WrapI64(e.requests + m.value));
          case OtherMetric =>
        }
      }
    }
    assert metrics[..|metrics|] == metrics;
  }

  // ---- Reports ----

  datatype Event = Event(sessionId: SessionId, metrics: seq<Option<Metric>>)

  /** What one event of a report does; `balance` answers the escrow query of the evaluation after it. */
  ghost function ReportOne(cells: map<SessionId, Cell>, threshold: nat, p: Pricing, event: Option<Event>,
                           balance: Option<nat>, now: nat)
    : map<SessionId, Cell>
  {
    if event.None? || event.value.sessionId == "" then cells
    else
      var id := event.value.sessionId;
      var c := CellIn(cells, threshold, id);
      var totals := EventTotals(event.value.metrics);
      if c.session.None? then cells
      else cells[id := Metered(c, totals, UsageCost(p, totals.blocks, totals.bytes), balance, now)]
  }

  ghost function ReportAll(cells: map<SessionId, Cell>, threshold: nat, p: Pricing,
                           events: seq<Option<Event>>, balances: seq<Option<nat>>, now: nat): map<SessionId, Cell>
    requires |balances| == |events|
  {
    if events == [] then cells
    else
      var n := |events| - 1;
      ReportOne(ReportAll(cells, threshold, p, events[..n], balances[..n], now), threshold, p, events[n], balances[n],
                now)
  }

  class UsageService {
    const gateway: PaymentGateway
    const pricing: Pricing

    constructor (gateway: PaymentGateway, pricing: Pricing)
      ensures this.gateway == gateway && this.pricing == pricing
    {
      this.gateway, this.pricing := gateway, pricing;
    }

    /** `Report`: apply every event in order and evaluate the session after each. */
    method Report(events: seq<Option<Event>>, balances: seq<Option<nat>>, now: nat)
      requires gateway.Valid() && |balances| == |events|
      modifies gateway`cells, gateway.repo, gateway.runtime
      ensures gateway.Valid()
      ensures gateway.cells == ReportAll(old(gateway.cells), gateway.threshold, pricing, events, balances, now)
    {
      for i := 0 to |events|
        invariant gateway.Valid()
        invariant gateway.cells == ReportAll(old(gateway.cells), gateway.threshold, pricing, events[..i],
                                             balances[..i], now)
      {
        assert events[..i + 1][..i] == events[..i] && balances[..i + 1][..i] == balances[..i];
        if events[i].Some? && events[i].value.sessionId != "" {
          var event := events[i].value;
          var usage := ToUsageEvent(event.metrics);
          var totals := SanitizedTotals(usage);
          var cost := UsageCost(pricing, totals.blocks, totals.bytes);
          gateway.OnMeteredUsage(event.sessionId, totals, cost, balances[i], now);
        }
      }
      assert events[..|events|] == events && balances[..|events|] == balances;
    }
  }

  // ---- The cost of a session is exact ----

  /** The usage that the steps of a run meter while the session exists. */
  function Tally(c: Cell, steps: seq<Step>): Counters {
    if steps == [] then Counters(0, 0, 0)
    else
      var front, last := steps[..|steps| - 1], steps[|steps| - 1];
      var t := Tally(c, front);
      if last.ApplyUsage? && Exec(c, front).session.Some?
      then Counters(t.blocks + last.delta.blocks, t.bytes + last.delta.bytes, t.requests + last.delta.requests)
      else t
  }

  predicate Priced(steps: seq<Step>, p: Pricing) {
    forall step <- steps :: step.ApplyUsage? ==> step.cost == ExactCost(p, step.delta.blocks, step.delta.bytes)
  }

  lemma StepKeepsMeter(c: Cell, step: Step)
    requires !step.ApplyUsage?
    ensures c.session.Some? ==> Next(c, step).session.Some?
    ensures c.session.Some? ==>
              && Next(c, step).session.value.totalCost == c.session.value.totalCost
              && Next(c, step).session.value.used == c.session.value.used
    ensures c.session.None? && Next(c, step).session.Some? ==>
              && Next(c, step).session.value.totalCost == 0
              && Next(c, step).session.value.used == Counters(0, 0, 0)
  {
  }

  /** The total cost is the price of the usage `t`, and the counters are `t` modulo 2^64. */
  predicate MeterExact(s: Session, t: Counters, p: Pricing) {
    && s.totalCost == ExactCost(p, t.blocks, t.bytes)
    && s.used == Counters(t.blocks % U64, t.bytes % U64, t.requests % U64)
  }

  lemma CostAdds(p: Pricing, blocks: nat, bytes: nat, moreBlocks: nat, moreBytes: nat)
    ensures ExactCost(p, blocks + moreBlocks, bytes + moreBytes) ==
            ExactCost(p, blocks, bytes) + ExactCost(p, moreBlocks, moreBytes)
  {
    Distribute(blocks, moreBlocks, 0, p.perBlock);
    Distribute(bytes, moreBytes, 0, p.perByte);
  }

  lemma UsageStepExact(s: Session, t: Counters, delta: Counters, cost: nat, now: nat, p: Pricing)
    requires MeterExact(s, t, p) && cost == ExactCost(p, delta.blocks, delta.bytes)
    ensures MeterExact(AddUsage(s, delta, cost, now),
                       Counters(t.blocks + delta.blocks, t.bytes + delta.bytes, t.requests + delta.requests), p)
  {
    CostAdds(p, t.blocks, t.bytes, delta.blocks, delta.bytes);
    AddWraps(t.blocks, delta.blocks);
    AddWraps(t.bytes, delta.bytes);
    AddWraps(t.requests, delta.requests);
  }

  /** In every run whose events are charged at the unit prices, whatever else is interleaved, the total
      cost is the price of all usage metered, and the counters are that usage modulo 2^64. */
  lemma {:induction false} TotalCostExact(threshold: nat, steps: seq<Step>, p: Pricing)
    requires Priced(steps, p)
    ensures var c, t := Exec(Init(threshold), steps), Tally(Init(threshold), steps);
            if c.session.None? then t == Counters(0, 0, 0) else MeterExact(c.session.value, t, p)
  {
    if steps != [] {
      var front, last := steps[..|steps| - 1], steps[|steps| - 1];
      TotalCostExact(threshold, front, p);
      var c, t := Exec(Init(threshold), front), Tally(Init(threshold), front);
      assert last in steps;
      if last.ApplyUsage? {
        if c.session.Some? {
          UsageStepExact(c.session.value, t, last.delta, last.cost, last.now, p);
        }
      } else {
        StepKeepsMeter(c, last);
      }
    }
  }

  lemma AddWraps(a: nat, b: nat)
    ensures AddU64(a % U64, b) == (a + b) % U64
  {
    ModSum(a % U64, b, U64);
    ModSum(a, b, U64);
  }

  lemma ReportLast(cells: map<SessionId, Cell>, threshold: nat, p: Pricing, events: seq<Option<Event>>,
                   balances: seq<Option<nat>>,
                   event: Option<Event>, balance: Option<nat>, now: nat)
    requires |balances| == |events|
    ensures ReportAll(cells, threshold, p, events + [event], balances + [balance], now) ==
            ReportOne(ReportAll(cells, threshold, p, events, balances, now), threshold, p, event, balance, now)
  {
    assert (events + [event])[..|events|] == events && (balances + [balance])[..|balances|] == balances;
  }

  /** Splitting a report into two changes nothing. */
  lemma {:induction false} BatchingIrrelevant(cells: map<SessionId, Cell>, threshold: nat, p: Pricing,
      first: seq<Option<Event>>, second: seq<Option<Event>>, b1: seq<Option<nat>>, b2: seq<Option<nat>>, now: nat)
    requires |b1| == |first| && |b2| == |second|
    ensures ReportAll(cells, threshold, p, first + second, b1 + b2, now) ==
            ReportAll(ReportAll(cells, threshold, p, first, b1, now), threshold, p, second, b2, now)
  {
    if second == [] {
      assert first + second == first && b1 + b2 == b1;
    } else {
      var n := |second| - 1;
      var events, balances := first + second, b1 + b2;
      assert events[..|events| - 1] == first + second[..n] && balances[..|events| - 1] == b1 + b2[..n];
      BatchingIrrelevant(cells, threshold, p, first, second[..n], b1, b2[..n], now);
      ReportLast(cells, threshold, p, first + second[..n], b1 + b2[..n], second[n], b2[n], now);
      assert first + second[..n] + [second[n]] == events && b1 + b2[..n] + [b2[n]] == balances;
    }
  }

  function Plus(a: Counters, b: Counters): Counters {
    Counters(a.blocks + b.blocks, a.bytes + b.bytes, a.requests + b.requests)
  }

  /** The usage an event holds for one session. */
  function EventFor(event: Option<Event>, id: SessionId): Counters {
    if event.Some? && event.value.sessionId == id then EventTotals(event.value.metrics) else Counters(0, 0, 0)
  }

  function ReportedFor(events: seq<Option<Event>>, id: SessionId): Counters {
    if events == [] then Counters(0, 0, 0)
    else Plus(ReportedFor(events[..|events| - 1], id), EventFor(events[|events| - 1], id))
  }

  lemma ControlKeepsSession(c: Cell)
    ensures Flushed(DoEvalDispatch(DoEvalCheck(DoEvalClear(c)))).session == c.session
  {
    var dispatched := DoEvalDispatch(DoEvalCheck(DoEvalClear(c)));
    assert dispatched.session == c.session;
  }

  lemma EvaluationKeepsMeter(c: Cell, balance: Option<nat>, now: nat)
    requires c.session.Some?
    ensures Evaluated(c, balance, now).session.Some?
    ensures Evaluated(c, balance, now).session.value.totalCost == c.session.value.totalCost
    ensures Evaluated(c, balance, now).session.value.used == c.session.value.used
  {
    var c1 := DoEvalBegin(c, balance, now);
    StepKeepsMeter(c, EvalBegin(balance, now));
    var c2 := DoEvalStore(c1);
    StepKeepsMeter(c1, EvalStore);
    ControlKeepsSession(c2);
  }

  /** One event adds its exact price, and the evaluation after it takes nothing back. */
  lemma EventCharges(c: Cell, p: Pricing, e: Counters, balance: Option<nat>, now: nat, t: Counters)
    requires (p.perBlock + p.perByte) * (U64 - 1) < U256 && e.blocks < U64 && e.bytes < U64
    requires c.session.Some? && MeterExact(c.session.value, t, p)
    ensures var c' := Evaluated(DoUsage(c, e, UsageCost(p, e.blocks, e.bytes), now), balance, now);
            c'.session.Some? &&
            MeterExact(c'.session.value, Plus(t, e), p)
  {
    var cost := UsageCost(p, e.blocks, e.bytes);
    CostBounded(p, e.blocks, e.bytes);
    CostExact(p, e.blocks, e.bytes);
    UsageStepExact(c.session.value, t, e, cost, now, p);
    EvaluationKeepsMeter(DoUsage(c, e, cost, now), balance, now);
  }

  /** The session has been charged exactly for usage `t`. */
  ghost predicate Charged(cells: map<SessionId, Cell>, threshold: nat, id: SessionId, t: Counters, p: Pricing) {
    var c := CellIn(cells, threshold, id);
    c.session.Some? && MeterExact(c.session.value, t, p)
  }

  lemma ReportOneCharges(cells: map<SessionId, Cell>, threshold: nat, p: Pricing, event: Option<Event>,
                         balance: Option<nat>, now: nat,
                         id: SessionId, t: Counters)
    requires id != "" && (p.perBlock + p.perByte) * (U64 - 1) < U256 && Charged(cells, threshold, id, t, p)
    ensures Charged(ReportOne(cells, threshold, p, event, balance, now), threshold, id, Plus(t, EventFor(event, id)), p)
  {
    if event.Some? && event.value.sessionId == id {
      EventCharges(CellIn(cells, threshold, id), p, EventTotals(event.value.metrics), balance, now, t);
    }
  }

  /** With prices that cannot wrap, a report charges a session exactly the price of its events. */
  lemma {:induction false} ReportCharges(cells: map<SessionId, Cell>, threshold: nat, p: Pricing,
      events: seq<Option<Event>>, balances: seq<Option<nat>>, now: nat, id: SessionId, t: Counters)
    requires |balances| == |events| && id != "" && (p.perBlock + p.perByte) * (U64 - 1) < U256
    requires Charged(cells, threshold, id, t, p)
    ensures Charged(ReportAll(cells, threshold, p, events, balances, now), threshold, id,
                    Plus(t, ReportedFor(events, id)), p)
  {
    if events != [] {
      var n := |events| - 1;
      ReportCharges(cells, threshold, p, events[..n], balances[..n], now, id, t);
      ReportOneCharges(ReportAll(cells, threshold, p, events[..n], balances[..n], now), threshold, p, events[n],
                       balances[n], now,
                       id, Plus(t, ReportedFor(events[..n], id)));
    }
  }

  /** What a session is charged depends only on the usage reported for it: not on how events are split
      into reports, nor on their order, nor on other sessions' events among them. */
  lemma ChargesIgnoreBatching(cells: map<SessionId, Cell>, threshold: nat, p: Pricing, id: SessionId, t: Counters,
      first: seq<Option<Event>>, second: seq<Option<Event>>, b1: seq<Option<nat>>, b2: seq<Option<nat>>,
      other: seq<Option<Event>>, b3: seq<Option<nat>>, now: nat)
    requires |b1| == |first| && |b2| == |second| && |b3| == |other|
    requires id != "" && (p.perBlock + p.perByte) * (U64 - 1) < U256 && Charged(cells, threshold, id, t, p)
    requires ReportedFor(first + second, id) == ReportedFor(other, id)
    ensures var s := CellIn(ReportAll(ReportAll(cells, threshold, p, first, b1, now), threshold, p, second, b2, now),
                            threshold, id).session;
            var s' := CellIn(ReportAll(cells, threshold, p, other, b3, now), threshold, id).session;
            && s.Some? && s'.Some?
            && s.value.totalCost == s'.value.totalCost && s.value.used == s'.value.used
  {
    BatchingIrrelevant(cells, threshold, p, first, second, b1, b2, now);
    ReportCharges(cells, threshold, p, first + second, b1 + b2, now, id, t);
    ReportCharges(cells, threshold, p, other, b3, now, id, t);
  }
}
