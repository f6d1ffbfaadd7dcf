/** The provider side of one payment session as a transition system.

    One `Step` is one critical section (a repository write, a runtime-mutex section, a channel
    operation) or the body that `withSessionEval` runs under the session's evaluation lock. A run is
    a sequence of steps in any order, so every interleaving of usage reports, evaluations, stream
    binds, late deliveries, submissions and operator calls is covered. A step whose guard is false
    changes nothing. */
module Protocol {
  import opened Basics
  import opened Ledger
  import opened Collections

  type Chan = nat

  const CHANNEL_CAPACITY: nat := 4

  /** Why a stream is stopped; the wire carries a sentence for each. */
  datatype Reason =
    | SessionNotFound | MissingVoucher | NoRequestInFlight | MissingUsage | UsageMismatch | InvalidVoucher
    | BadSignature | PayerMismatch | ProviderMismatch | DataServiceMismatch | NotAuthorized
    | BelowCurrent | Underpays | Overpays | CommitFailed | MissingAck | NoDepositPlanned
    | EndedForPayment | EndedComplete | EndedByClient | EndedByProvider | EndedByError | NotActive

  datatype Message =
    | RavRequest(current: SignedRav, usage: Usage)
    | NeedMoreFunds(outstanding: Option<SignedRav>, totalOutstanding: nat, escrowBalance: nat, minimumNeeded: nat)
    | Continue
    | Stop(reason: Reason)

  /** A response value is shared by reference; `id` is that identity. */
  datatype Response = Response(id: nat, message: Message)

  /** `runtimeSessionState`; an absent map entry is the idle slot. */
  datatype Slot = Slot(events: Option<Chan>, pending: Option<Pending>, queued: Option<Response>)

  const IDLE := Slot(None, None, None)

  /** A response on its way to a stream's channel, with the pending request it was queued with. */
  datatype Delivery = Delivery(chan: Chan, response: Response, pending: Option<Pending>)

  /** Where the holder of the evaluation lock is. `snap` is the session it read, assessed, and
      possibly ended. */
  datatype Eval =
    | Free
    | Storing(snap: Session, assessment: Assessment)
    | Clearing(snap: Session, assessment: Assessment)
    | Checking(snap: Session, assessment: Assessment)
    | Dispatching(snap: Session, assessment: Assessment)

  /** `placed` records which responses were ever put on which channel and `assessed` the metered
      cost at the last sufficient funds check: both are history, read by no step. */
  datatype Cell = Cell(
    threshold: nat,
    session: Option<Session>,
    records: map<Tuple, Record>,
    slot: Slot,
    channels: map<Chan, seq<Response>>,
    sending: set<Delivery>,
    clearing: set<Delivery>,
    eval: Eval,
    nextId: nat,
    placed: set<(Chan, nat)>,
    assessed: nat)

  function Init(threshold: nat): Cell {
    Cell(threshold, None, map[], IDLE, map[], {}, {}, Free, 0, {}, 0)
  }

  /** The state of one of many sessions; a session nobody has touched is at its initial state. */
  function CellIn(cells: map<SessionId, Cell>, threshold: nat, id: SessionId): Cell {
    if id in cells then cells[id] else Init(threshold)
  }

  datatype ClaimedUsage = ClaimedUsage(counters: Counters, cost: Option<nat>)

  datatype SubmittedRav = Missing | Malformed | Given(rav: SignedRav)

  /** A stream submission; signature recovery and signer authorization enter as their results. */
  datatype Submission = Submission(
    usage: Option<ClaimedUsage>,
    voucher: SubmittedRav,
    signatureOk: bool,
    authorized: bool)

  datatype Step =
    | Start(payer: Address, receiver: Address, dataService: Address, initial: Option<SignedRav>, now: nat)
    | ApplyUsage(delta: Counters, cost: nat, now: nat)
    | TouchSession(at: nat)
    | EvalBegin(balance: Option<nat>, now: nat)
    | EvalStore
    | EvalClear
    | EvalCheck
    | EvalDispatch
    | Bind
    | Unbind(chan: Chan)
    | Send(delivery: Delivery)
    | Clear(delivery: Delivery)
    | Take(chan: Chan)
    | Submit(submission: Submission, now: nat)
    | FundsAck
    | SubmitUnary(rav: SignedRav, signatureOk: bool, authorized: bool, now: nat)
    | OpMarkPending(tuple: Tuple, expected: nat, tx: string, now: nat)
    | OpMarkCollected(tuple: Tuple, expected: nat, tx: string, amount: Option<nat>, now: nat)
    | OpMarkRetryable(tuple: Tuple, expected: nat, tx: string, error: string, now: nat)

  // ---- Session creation and the ledger writes ----

  function DoStart(c: Cell, payer: Address, receiver: Address, dataService: Address, rav: Option<SignedRav>, now: nat)
    : Cell
  {
    if c.session.Some? then c
    else
      var s := NewSession(payer, receiver, dataService, rav, now);
      match rav
      case None => c.(session := Some(s))
      case Some(r) =>
        var t := r.message.tuple;
        var next := NextCollectible(Lookup(c.records, t), r, now);
        if next.Err? then c else c.(session := Some(s), records := Store(c.records, t, next))
  }

  function DoUsage(c: Cell, delta: Counters, cost: nat, now: nat): Cell {
    if c.session.None? then c else c.(session := Some(AddUsage(c.session.value, delta, cost, now)))
  }

  function DoTouch(c: Cell, at: nat): Cell {
    if c.session.None? then c else c.(session := Some(Touch(c.session.value, at)))
  }

  /** `SessionUpdateRAVAndBaseline`: the voucher, its baseline and its settlement record, or nothing. */
  function Commit(c: Cell, rav: SignedRav, baseline: Counters, baselineCost: nat, now: nat)
    : Result<Cell, CollectionError>
  {
    var t := rav.message.tuple;
    var next := NextCollectible(Lookup(c.records, t), rav, now);
    if next.Err? then Err(next.error)
    else if c.session.None? then Err(NotFound)
    else Ok(c.(session := Some(CommitRav(c.session.value, rav, baseline, baselineCost, now)),
               records := Store(c.records, t, next)))
  }

  // ---- Evaluation under the session lock ----

  function DoEvalBegin(c: Cell, balance: Option<nat>, now: nat): Cell {
    if !c.eval.Free? || c.session.None? || !IsActive(c.session.value) then c
    else
      var s := c.session.value;
      var a := AssessFunds(s, balance);
      var assessed := s.(life := s.life.(funds := Some(a)));
      var snap := if a.status == FundsInsufficient then End(assessed, PaymentIssue, now) else assessed;
      c.(eval := Storing(snap, a))
  }

  function DoEvalStore(c: Cell): Cell {
    if !c.eval.Storing? || c.session.None? then c
    else
      var snap, a := c.eval.snap, c.eval.assessment;
      var s := UpdateLifecycle(c.session.value, snap.life, snap.updatedAt);
      var next := if a.status == FundsInsufficient then Clearing(snap, a)
                  else if ShouldRequestRav(snap, c.threshold) then Checking(snap, a)
                  else Free;
      c.(session := Some(s), eval := next,
         assessed := if a.status == FundsOk then snap.totalCost else c.assessed)
  }

  function DoEvalClear(c: Cell): Cell {
    if !c.eval.Clearing? then c
    else c.(slot := c.slot.(pending := None), eval := Dispatching(c.eval.snap, c.eval.assessment))
  }

  function DoEvalCheck(c: Cell): Cell {
    if !c.eval.Checking? then c
    else if c.slot.events.None? || c.slot.pending.Some? then c.(eval := Free)
    else c.(eval := Dispatching(c.eval.snap, c.eval.assessment))
  }

  function ControlMessage(snap: Session, a: Assessment): Message {
    if a.status == FundsInsufficient || snap.rav.None? then
      NeedMoreFunds(snap.rav, Wire(a.currentOutstanding),
                    match a.escrow { case None => 0 case Some(b) => Wire(b) }, Wire(a.minimumNeeded))
    else RavRequest(snap.rav.value, RequestedUsage(snap))
  }

  function DoEvalDispatch(c: Cell): Cell {
    if !c.eval.Dispatching? then c
    else
      var snap, a := c.eval.snap, c.eval.assessment;
      var response := Response(c.nextId, ControlMessage(snap, a));
      var pending := if response.message.RavRequest? then Some(NewPending(c.nextId, snap)) else None;
      c.(slot := c.slot.(queued := Some(response), pending := pending),
         sending := c.sending + Outgoing(c.slot.events, Some(response), pending),
         eval := Free,
         nextId := c.nextId + 1)
  }

  function Outgoing(events: Option<Chan>, queued: Option<Response>, pending: Option<Pending>): set<Delivery> {
    if events.Some? && queued.Some? then {Delivery(events.value, queued.value, pending)} else {}
  }

  // ---- Streams ----

  /** The mutex section of `bindSession`: a request the previous stream already received is dropped
      so that the new stream can be asked again. */
  function BindSlot(slot: Slot, chan: Chan): Slot {
    if slot.events.Some? then slot
    else if slot.pending.Some? && slot.queued.None? then slot.(pending := None, events := Some(chan))
    else slot.(events := Some(chan))
  }

  function DoBind(c: Cell): Cell {
    if c.slot.events.Some? then c
    else
      var slot := BindSlot(c.slot, c.nextId);
      c.(slot := slot,
         channels := c.channels[c.nextId := []],
         sending := c.sending + Outgoing(slot.events, slot.queued, slot.pending),
         nextId := c.nextId + 1)
  }

  function DoUnbind(c: Cell, chan: Chan): Cell {
    if c.slot.events == Some(chan) then c.(slot := c.slot.(events := None)) else c
  }

  /** The non-blocking channel send of a delivery: placed, or given up when the channel is full. */
  function DoSend(c: Cell, d: Delivery): Cell {
    if d !in c.sending then c
    else if d.chan !in c.channels || |c.channels[d.chan]| >= CHANNEL_CAPACITY then c.(sending := c.sending - {d})
    else c.(sending := c.sending - {d},
            clearing := c.clearing + {d},
            channels := c.channels[d.chan := c.channels[d.chan] + [d.response]],
            placed := c.placed + {(d.chan, d.response.id)})
  }

  /** `clearQueuedResponse`. */
  function ClearDelivered(slot: Slot, d: Delivery): Slot {
    if slot.events == Some(d.chan) && slot.queued == Some(d.response)
    then slot.(queued := None, pending := d.pending)
    else slot
  }

  function DoClear(c: Cell, d: Delivery): Cell {
    if d !in c.clearing then c else c.(clearing := c.clearing - {d}, slot := ClearDelivered(c.slot, d))
  }

  function DoTake(c: Cell, chan: Chan): Cell {
    if chan !in c.channels || c.channels[chan] == [] then c
    else c.(channels := c.channels[chan := c.channels[chan][1..]])
  }

  function DoFundsAck(c: Cell): Cell {
    c.(slot := c.slot.(pending := None, queued := None))
  }

  // ---- Submissions ----

  function InactiveReason(reason: EndReason): Reason {
    match reason
    case PaymentIssue => EndedForPayment
    case Complete => EndedComplete
    case ClientDisconnect => EndedByClient
    case ProviderStop => EndedByProvider
    case ProviderError => EndedByError
    case Unspecified => NotActive
  }

  predicate MatchesUsage(p: Pending, usage: ClaimedUsage) {
    usage.counters == p.usage.counters && usage.cost == Some(p.usage.cost)
  }

  /** Why a stream submission is refused before any state is written, if it is. */
  function Refusal(s: Session, pending: Option<Pending>, sub: Submission): Option<Reason> {
    if sub.voucher.Missing? then Some(MissingVoucher)
    else if pending.None? then
      Some(if IsActive(s) then NoRequestInFlight
           else InactiveReason(s.life.endReason))
    else if sub.usage.None? then Some(MissingUsage)
    else if !MatchesUsage(pending.value, sub.usage.value) then
      Some(UsageMismatch)
    else if sub.voucher.Malformed? then Some(InvalidVoucher)
    else if !sub.signatureOk then Some(BadSignature)
    else
      var rav := sub.voucher.rav.message;
      if rav.tuple.payer != s.payer then Some(PayerMismatch)
      else if rav.tuple.serviceProvider != s.receiver then Some(ProviderMismatch)
      else if rav.tuple.dataService != s.dataService then Some(DataServiceMismatch)
      else if !sub.authorized then Some(NotAuthorized)
      else if rav.value < pending.value.currentValue then Some(BelowCurrent)
      else if rav.value < pending.value.target then Some(Underpays)
      else if rav.value > pending.value.target then Some(Overpays)
      else None
  }

  /** `commitAcceptedRAV` and the clearing of the request it answers. */
  function Accept(c: Cell, p: Pending, rav: SignedRav, now: nat): Result<Cell, CollectionError> {
    match Commit(c, rav, p.baseline, p.baselineCost, now)
    case Err(e) => Err(e)
    case Ok(c') => Ok(c'.(slot := c'.slot.(pending := None, queued := None)))
  }

  /** `handleRAVSubmission` under the lock, up to its re-evaluation: the new state and the reply. */
  function HandleSubmission(c: Cell, sub: Submission, now: nat): (Cell, Message) {
    if !c.eval.Free? || c.session.None? then (c, Stop(SessionNotFound))
    else
      var refusal := Refusal(c.session.value, c.slot.pending, sub);
      if refusal.Some? then (c, Stop(refusal.value))
      else
        match Accept(c, c.slot.pending.value, sub.voucher.rav, now)
        case Err(_) => (c, Stop(CommitFailed))
        case Ok(c') => (c', Continue)
  }

  /** `SubmitRAV`: the unary call that accepts any sufficient voucher while no request is pending.
      A failed commit is ignored and the caller is still told the voucher was accepted. */
  function HandleUnary(c: Cell, rav: SignedRav, signatureOk: bool, authorized: bool, now: nat): (Cell, bool) {
    if !c.eval.Free? || c.session.None? then (c, false)
    else
      var s := c.session.value;
      if !IsActive(s) || c.slot.pending.Some? || !signatureOk || !authorized then (c, false)
      else if rav.message.tuple.payer != s.payer || rav.message.tuple.serviceProvider != s.receiver then (c, false)
      else if rav.message.value < RavValue(s) then (c, false)
      else if rav.message.value < ProjectedOutstanding(s) then (c, false)
      else
        match Commit(c, rav, s.used, s.totalCost, now)
        case Err(_) => (c, true)
        case Ok(c') => (c', true)
  }

  // ---- Operator calls ----

  function DoMark(c: Cell, t: Tuple, mark: Record -> Outcome): Cell {
    if t !in c.records then c else c.(records := Store(c.records, t, mark(c.records[t])))
  }

  function Next(c: Cell, step: Step): Cell {
    match step
    case Start(payer, receiver, dataService, rav, now) => DoStart(c, payer, receiver, dataService, rav, now)
    case ApplyUsage(delta, cost, now) => DoUsage(c, delta, cost, now)
    case TouchSession(at) => DoTouch(c, at)
    case EvalBegin(balance, now) => DoEvalBegin(c, balance, now)
    case EvalStore => DoEvalStore(c)
    case EvalClear => DoEvalClear(c)
    case EvalCheck => DoEvalCheck(c)
    case EvalDispatch => DoEvalDispatch(c)
    case Bind => DoBind(c)
    case Unbind(chan) => DoUnbind(c, chan)
    case Send(d) => DoSend(c, d)
    case Clear(d) => DoClear(c, d)
    case Take(chan) => DoTake(c, chan)
    case Submit(sub, now) => HandleSubmission(c, sub, now).0
    case FundsAck => DoFundsAck(c)
    case SubmitUnary(rav, signatureOk, authorized, now) => HandleUnary(c, rav, signatureOk, authorized, now).0
    case OpMarkPending(t, expected, tx, now) => DoMark(c, t, r => MarkPending(r, expected, tx, now))
    case OpMarkCollected(t, expected, tx, amount, now) => DoMark(c, t, r => MarkCollected(r, expected, tx, amount, now))
    case OpMarkRetryable(t, expected, tx, error, now) => DoMark(c, t, r => MarkRetryable(r, expected, tx, error, now))
  }

  /** The state a run leads to. */
  function Exec(c: Cell, steps: seq<Step>): Cell {
    if steps == [] then c else Next(Exec(c, steps[..|steps| - 1]), steps[|steps| - 1])
  }
}
