/** The provider's view of one payment session: counters, the accepted voucher (RAV),
    the baseline it covers, the pending-request snapshot and the funds assessment. */
module Ledger {
  import opened Basics

  /** The on-chain settlement tuple a voucher is drawn on. */
  datatype Tuple = Tuple(collectionId: nat, payer: Address, serviceProvider: Address, dataService: Address)

  datatype Rav = Rav(tuple: Tuple, timestampNs: nat, value: Grt)

  datatype SignedRav = SignedRav(message: Rav, signature: nat)

  datatype Status = Active | Paused | Terminated

  datatype EndReason = Unspecified | Complete | ClientDisconnect | PaymentIssue | ProviderStop | ProviderError

  datatype Counters = Counters(blocks: nat, bytes: nat, requests: nat)

  datatype Usage = Usage(counters: Counters, cost: nat)

  datatype FundsStatus = FundsOk | FundsInsufficient | FundsUnknown

  datatype Assessment = Assessment(
    status: FundsStatus,
    currentOutstanding: nat,
    projectedOutstanding: nat,
    escrow: Option<nat>,
    minimumNeeded: nat)

  /** Lifecycle fields: the part `SessionUpdateRuntimeState` may write. */
  datatype Lifecycle = Lifecycle(
    status: Status,
    funds: Option<Assessment>,
    endedAt: Option<nat>,
    endReason: EndReason)

  datatype Session = Session(
    life: Lifecycle,
    updatedAt: nat,
    lastKeepAlive: nat,
    payer: Address,
    receiver: Address,
    dataService: Address,
    rav: Option<SignedRav>,
    used: Counters,
    totalCost: nat,
    baseline: Counters,
    baselineCost: nat)

  predicate IsActive(s: Session) {
    s.life.status == Active
  }

  function RavValue(s: Session): nat {
    match s.rav
    case None => 0
    case Some(r) => r.message.value
  }

  /** What the accepted voucher says beyond the cost it covers. */
  function Surplus(s: Session): int {
    RavValue(s) - s.baselineCost
  }

  function NewSession(payer: Address, receiver: Address, dataService: Address, rav: Option<SignedRav>, now: nat)
    : Session
  {
    var zero := Counters(0, 0, 0);
    Session(Lifecycle(Active, None, None, Unspecified), now, now, payer, receiver, dataService, rav, zero, 0, zero, 0)
  }

  function AddUsage(s: Session, delta: Counters, cost: nat, now: nat): Session {
    s.(used := Counters(AddU64(s.used.blocks, delta.blocks),
                        AddU64(s.used.bytes, delta.bytes),
                        AddU64(s.used.requests, delta.requests)),
       totalCost := s.totalCost + cost,
       updatedAt := now)
  }

  function UsageSinceBaseline(s: Session): Usage {
    Usage(Counters(Since(s.used.blocks, s.baseline.blocks),
                   Since(s.used.bytes, s.baseline.bytes),
                   Since(s.used.requests, s.baseline.requests)),
          Since(s.totalCost, s.baselineCost))
  }

  function ProjectedOutstanding(s: Session): nat {
    RavValue(s) + UsageSinceBaseline(s).cost
  }

  function End(s: Session, reason: EndReason, now: nat): Session {
    s.(life := s.life.(status := Terminated, endedAt := Some(now), endReason := reason), updatedAt := now)
  }

  /** The escrow balance seen by a funds check: `None` when it cannot be read. */
  function AssessFunds(s: Session, balance: Option<nat>): (a: Assessment)
    ensures a.currentOutstanding == RavValue(s) && a.projectedOutstanding == ProjectedOutstanding(s) &&
            a.escrow == balance
    ensures a.status == FundsUnknown <==> balance.None?
    ensures a.status == FundsInsufficient <==> balance.Some? && ProjectedOutstanding(s) > balance.value
    ensures a.status == FundsInsufficient ==>
              balance.value + a.minimumNeeded == a.projectedOutstanding
    ensures a.status != FundsInsufficient ==> a.minimumNeeded == 0
  {
    var current := RavValue(s);
    var projected := current + UsageSinceBaseline(s).cost;
    match balance
    case None => Assessment(FundsUnknown, current, projected, None, 0)
    case Some(b) =>
      if projected > b
      then Assessment(FundsInsufficient, current, projected, Some(b), projected - b)
      else Assessment(FundsOk, current, projected, Some(b), 0)
  }

  predicate ShouldRequestRav(s: Session, threshold: nat) {
    s.rav.Some? && UsageSinceBaseline(s).cost >= threshold
  }

  /** A provider request for the next voucher, with the ledger snapshot that accepting it will commit.
      `id` names the response it was dispatched with. */
  datatype Pending = Pending(
    id: nat,
    usage: Usage,
    currentValue: nat,
    target: nat,
    baseline: Counters,
    baselineCost: nat)

  /** The usage a request quotes: the cost is clamped by its wire form. */
  function RequestedUsage(s: Session): Usage {
    var u := UsageSinceBaseline(s);
    u.(cost := Wire(u.cost))
  }

  function NewPending(id: nat, s: Session): Pending {
    var usage := RequestedUsage(s);
    Pending(id, usage, RavValue(s), RavValue(s) + usage.cost, s.used, s.totalCost)
  }

  function CommitRav(s: Session, rav: SignedRav, baseline: Counters, baselineCost: nat, now: nat): Session {
    s.(rav := Some(rav), baseline := baseline, baselineCost := baselineCost, updatedAt := now)
  }

  /** `SessionUpdateRuntimeState`: a terminated session keeps its lifecycle whatever the caller's snapshot says. */
  function UpdateLifecycle(s: Session, life: Lifecycle, updatedAt: nat): (s': Session)
    ensures s'.life == if s.life.status == Terminated then s.life else life
    ensures s'.updatedAt >= s.updatedAt && s'.(life := s.life, updatedAt := s.updatedAt) == s
  {
    if s.life.status == Terminated then s
    else s.(life := life, updatedAt := if updatedAt > s.updatedAt then updatedAt else s.updatedAt)
  }

  function Touch(s: Session, at: nat): (s': Session)
    ensures s'.lastKeepAlive >= s.lastKeepAlive && s'.lastKeepAlive >= at
    ensures s'.updatedAt >= s.updatedAt && s'.(lastKeepAlive := s.lastKeepAlive, updatedAt := s.updatedAt) == s
  {
    var alive := if at > s.lastKeepAlive then at else s.lastKeepAlive;
    s.(lastKeepAlive := alive, updatedAt := if alive > s.updatedAt then alive else s.updatedAt)
  }

  /** The money part of a session. */
  datatype Book = Book(rav: Option<SignedRav>, baselineCost: nat, totalCost: nat)

  function BookOf(s: Session): Book {
    Book(s.rav, s.baselineCost, s.totalCost)
  }

  /** The snapshot a request carries fits the ledger: same voucher, same old baseline,
      and a new baseline between the old one and what has been metered. */
  predicate PendingFits(p: Pending, b: Book) {
    && b.rav.Some?
    && p.currentValue == b.rav.value.message.value
    && b.baselineCost <= p.baselineCost <= b.totalCost
    && p.usage.cost == Wire(p.baselineCost - b.baselineCost)
    && p.target == p.currentValue + p.usage.cost
  }

  /** Accepting a request keeps the surplus exactly when its cost crossed the wire unclamped. */
  lemma AcceptKeepsSurplus(s: Session, p: Pending, rav: SignedRav, now: nat)
    requires PendingFits(p, BookOf(s))
    requires rav.message.value == p.target
    ensures var s' := CommitRav(s, rav, p.baseline, p.baselineCost, now);
            && Surplus(s') <= Surplus(s)
            && (Surplus(s') == Surplus(s) <==> p.baselineCost - s.baselineCost < U256)
            && (Surplus(s') == Surplus(s) ==> ProjectedOutstanding(s') == ProjectedOutstanding(s))
            && RavValue(s) <= RavValue(s')
  {
  }
}
