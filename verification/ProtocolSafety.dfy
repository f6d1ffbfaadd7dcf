/** What every run of the payment-session protocol keeps. */
module ProtocolSafety {
  import opened Basics
  import opened Ledger
  import opened Collections
  import opened Protocol

  // ---- The invariant, in five parts ----

  predicate DeliveryKnown(chans: set<Chan>, nextId: nat, d: Delivery) {
    && d.chan in chans
    && d.response.id < nextId
    && (d.pending.Some? ==> d.pending.value.id == d.response.id && d.response.message.RavRequest?)
  }

  /** Identities are new, and a delivery about to be cleared was placed on its channel. */
  predicate Known(slot: Slot, chans: set<Chan>, sending: set<Delivery>, clearing: set<Delivery>,
                  placed: set<(Chan, nat)>, nextId: nat)
  {
    && (forall ch <- chans :: ch < nextId)
    && (slot.events.Some? ==> slot.events.value in chans)
    && (slot.queued.Some? ==> slot.queued.value.id < nextId)
    && (slot.pending.Some? ==> slot.pending.value.id < nextId)
    && (forall x <- placed :: x.0 < nextId && x.1 < nextId)
    && (forall d <- sending :: DeliveryKnown(chans, nextId, d))
    && (forall d <- clearing :: DeliveryKnown(chans, nextId, d) && (d.chan, d.response.id) in placed)
  }

  /** The evaluation has already cleared the pending request but not yet queued its stop. */
  predicate Stopping(e: Eval) {
    e.Dispatching? && e.assessment.status == FundsInsufficient
  }

  /** A queued response and the pending request belong together. */
  predicate Paired(slot: Slot, stopping: bool) {
    slot.queued.Some? ==>
      var request := slot.queued.value.message.RavRequest?;
      && (slot.pending.Some? ==> request && slot.pending.value.id == slot.queued.value.id)
      && (request && !stopping ==> slot.pending.Some?)
  }

  predicate DeliveryFits(b: Book, slot: Slot, d: Delivery) {
    slot.queued == Some(d.response) ==>
      && (d.pending.Some? ==> PendingFits(d.pending.value, b))
      && (slot.pending.Some? ==> d.pending == slot.pending)
  }

  /** Every request that can still be accepted commits a baseline that fits the ledger. */
  predicate LedgerFits(b: Book, slot: Slot, sending: set<Delivery>, clearing: set<Delivery>) {
    && b.baselineCost <= b.totalCost
    && (slot.pending.Some? ==> PendingFits(slot.pending.value, b))
    && (forall d <- sending :: DeliveryFits(b, slot, d))
    && (forall d <- clearing :: DeliveryFits(b, slot, d))
  }

  /** The evaluator's snapshot differs from the stored session only by usage metered since. */
  predicate EvalFits(e: Eval, s: Session, slot: Slot) {
    !e.Free? ==>
      var insufficient := e.assessment.status == FundsInsufficient;
      && e.snap.rav == s.rav
      && e.snap.baseline == s.baseline
      && e.snap.baselineCost == s.baselineCost
      && e.snap.baselineCost <= e.snap.totalCost <= s.totalCost
      && e.snap.life.funds == Some(e.assessment)
      && e.snap.life.status == (if insufficient then Terminated else Active)
      && (insufficient ==> e.snap.life.endReason == PaymentIssue)
      && (e.Storing? ==> IsActive(s))
      && (e.Clearing? ==> insufficient)
      && (e.Checking? ==> !insufficient)
      && (!e.Storing? ==> if insufficient then s.life == e.snap.life else IsActive(s) && e.snap.rav.Some?)
      && (e.Dispatching? && !insufficient ==> slot.pending.None?)
  }

  /** A stopped session was stopped for payment, and once the stop is queued no request can be
      pending or come back. */
  predicate StopHolds(life: Lifecycle, e: Eval, slot: Slot) {
    && (life.status == Active || life.status == Terminated)
    && (life.status == Terminated ==>
          && life.endReason == PaymentIssue
          && (|| e.Clearing?
              || Stopping(e)
              || (e.Free? && slot.pending.None? && (slot.queued.Some? ==> !slot.queued.value.message.RavRequest?))))
  }

  /** A pending request with nothing queued was put on the channel of the stream now bound. */
  predicate NotStranded(slot: Slot, placed: set<(Chan, nat)>) {
    slot.events.Some? && slot.pending.Some? && slot.queued.None? ==>
      (slot.events.value, slot.pending.value.id) in placed
  }

  predicate RecordMatches(t: Tuple, r: Record) {
    r.rav.message.tuple == t && r.value == r.rav.message.value
  }

  /** The voucher has a record of the same value under its key, and no record exceeds it. */
  predicate RecordsAgree(records: map<Tuple, Record>, rav: Option<SignedRav>) {
    && (forall t <- records :: RecordMatches(t, records[t]))
    && match rav
       case None => records == map[]
       case Some(r) =>
         && r.message.tuple in records
         && records[r.message.tuple].value == r.message.value
         && (forall t <- records :: records[t].value <= r.message.value)
  }

  predicate Inv(c: Cell) {
    && Known(c.slot, c.channels.Keys, c.sending, c.clearing, c.placed, c.nextId)
    && Paired(c.slot, Stopping(c.eval))
    && NotStranded(c.slot, c.placed)
    && match c.session
       case None =>
         && c.eval.Free? && c.slot.pending.None? && c.slot.queued.None?
         && c.sending == {} && c.clearing == {} && c.records == map[]
       case Some(s) =>
         && LedgerFits(BookOf(s), c.slot, c.sending, c.clearing)
         && EvalFits(c.eval, s, c.slot)
         && StopHolds(s.life, c.eval, c.slot)
         && RecordsAgree(c.records, s.rav)
  }

  // ---- Each group of steps keeps it ----

  lemma StartKeepsInv(c: Cell, payer: Address, receiver: Address, dataService: Address, rav: Option<SignedRav>,
                      now: nat)
    requires Inv(c)
    ensures Inv(DoStart(c, payer, receiver, dataService, rav, now))
  {
  }

  lemma UsageKeepsInv(c: Cell, delta: Counters, cost: nat, now: nat)
    requires Inv(c)
    ensures Inv(DoUsage(c, delta, cost, now))
  {
  }

  lemma TouchKeepsInv(c: Cell, at: nat)
    requires Inv(c)
    ensures Inv(DoTouch(c, at))
  {
  }

  lemma EvalBeginKeepsInv(c: Cell, balance: Option<nat>, now: nat)
    requires Inv(c)
    ensures Inv(DoEvalBegin(c, balance, now))
  {
  }

  lemma EvalStoreKeepsInv(c: Cell)
    requires Inv(c)
    ensures Inv(DoEvalStore(c))
  {
  }

  lemma EvalClearKeepsInv(c: Cell)
    requires Inv(c)
    ensures Inv(DoEvalClear(c)) && Inv(DoEvalCheck(c))
  {
  }

  lemma DispatchKeepsInv(c: Cell)
    requires Inv(c)
    ensures Inv(DoEvalDispatch(c))
  {
  }

  lemma BindKeepsInv(c: Cell)
    requires Inv(c)
    ensures Inv(DoBind(c))
  {
  }

  lemma StreamStepsKeepInv(c: Cell, step: Step)
    requires Inv(c)
    requires step.Unbind? || step.Take? || step.FundsAck?
    ensures Inv(Next(c, step))
  {
    if step.Take? {
      assert Next(c, step).channels.Keys == c.channels.Keys;
    }
  }

  lemma SendKeepsInv(c: Cell, d: Delivery)
    requires Inv(c)
    ensures Inv(DoSend(c, d))
  {
    if d in c.sending {
      assert DoSend(c, d).channels.Keys == c.channels.Keys;
    }
  }

  lemma ClearKeepsInv(c: Cell, d: Delivery)
    requires Inv(c)
    ensures Inv(DoClear(c, d))
  {
  }

  lemma CommitAgrees(c: Cell, rav: SignedRav, baseline: Counters, baselineCost: nat, now: nat)
    requires c.session.Some? && RecordsAgree(c.records, c.session.value.rav)
    requires RavValue(c.session.value) <= rav.message.value
    ensures var result := Commit(c, rav, baseline, baselineCost, now);
            result.Ok? ==> RecordsAgree(result.value.records, Some(rav))
  {
  }

  /** The voucher meets the pending request exactly. */
  predicate Meets(c: Cell, p: Pending, rav: SignedRav) {
    c.session.Some? && c.eval.Free? && c.slot.pending == Some(p) && rav.message.value == p.target
  }

  /** A submission changes the state only by accepting a voucher that meets the pending request. */
  lemma SubmissionAccepts(c: Cell, sub: Submission, now: nat)
    ensures var (c', reply) := HandleSubmission(c, sub, now);
            && (reply != Continue ==> c' == c)
            && (reply == Continue ==>
                  && sub.voucher.Given? && c.slot.pending.Some?
                  && Meets(c, c.slot.pending.value, sub.voucher.rav)
                  && Accept(c, c.slot.pending.value, sub.voucher.rav, now) == Ok(c'))
  {
  }

  lemma AcceptKeepsInv(c: Cell, p: Pending, rav: SignedRav, now: nat)
    requires Inv(c) && Meets(c, p, rav)
    ensures Accept(c, p, rav, now).Ok? ==> Inv(Accept(c, p, rav, now).value)
  {
    CommitAgrees(c, rav, p.baseline, p.baselineCost, now);
  }

  lemma SubmitKeepsInv(c: Cell, sub: Submission, now: nat)
    requires Inv(c)
    ensures Inv(HandleSubmission(c, sub, now).0)
  {
    SubmissionAccepts(c, sub, now);
    if HandleSubmission(c, sub, now).1 == Continue {
      AcceptKeepsInv(c, c.slot.pending.value, sub.voucher.rav, now);
    }
  }

  lemma UnaryKeepsInv(c: Cell, rav: SignedRav, signatureOk: bool, authorized: bool, now: nat)
    requires Inv(c)
    ensures Inv(HandleUnary(c, rav, signatureOk, authorized, now).0)
  {
    if HandleUnary(c, rav, signatureOk, authorized, now).1 {
      CommitAgrees(c, rav, c.session.value.used, c.session.value.totalCost, now);
    }
  }

  lemma MarkKeepsInv(c: Cell, t: Tuple, mark: Record -> Outcome)
    requires Inv(c)
    requires t in c.records && mark(c.records[t]).Ok? ==>
               mark(c.records[t]).value.rav == c.records[t].rav && mark(c.records[t]).value.value == c.records[t].value
    ensures Inv(DoMark(c, t, mark))
  {
    if c.session.Some? {
      assert RecordsAgree(DoMark(c, t, mark).records, c.session.value.rav);
    }
  }

  predicate EvalStep(step: Step) {
    step.EvalBegin? || step.EvalStore? || step.EvalClear? || step.EvalCheck? || step.EvalDispatch?
  }

  predicate TransportStep(step: Step) {
    step.Bind? || step.Unbind? || step.Take? || step.FundsAck? || step.Send? || step.Clear?
  }

  predicate MarkStep(step: Step) {
    step.OpMarkPending? || step.OpMarkCollected? || step.OpMarkRetryable?
  }

  lemma EvalStepKeepsInv(c: Cell, step: Step)
    requires Inv(c) && EvalStep(step)
    ensures Inv(Next(c, step))
  {
    match step
    case EvalBegin(balance, now) => EvalBeginKeepsInv(c, balance, now);
    case EvalStore => EvalStoreKeepsInv(c);
    case EvalClear => EvalClearKeepsInv(c);
    case EvalCheck => EvalClearKeepsInv(c);
    case EvalDispatch => DispatchKeepsInv(c);
  }

  lemma TransportKeepsInv(c: Cell, step: Step)
    requires Inv(c) && TransportStep(step)
    ensures Inv(Next(c, step))
  {
    match step
    case Bind => BindKeepsInv(c);
    case Send(d) => SendKeepsInv(c, d);
    case Clear(d) => ClearKeepsInv(c, d);
    case _ => StreamStepsKeepInv(c, step);
  }

  lemma MarkStepKeepsInv(c: Cell, step: Step)
    requires Inv(c) && MarkStep(step)
    ensures Inv(Next(c, step))
  {
    match step
    case OpMarkPending(t, expected, tx, now) => MarkKeepsInv(c, t, r => MarkPending(r, expected, tx, now));
    case OpMarkCollected(t, expected, tx, amount, now) =>
      MarkKeepsInv(c, t, r => MarkCollected(r, expected, tx, amount, now));
    case OpMarkRetryable(t, expected, tx, error, now) =>
      MarkKeepsInv(c, t, r => MarkRetryable(r, expected, tx, error, now));
  }

  lemma LedgerStepKeepsInv(c: Cell, step: Step)
    requires Inv(c) && !EvalStep(step) && !TransportStep(step) && !MarkStep(step)
    ensures Inv(Next(c, step))
  {
    match step
    case Start(payer, receiver, dataService, rav, now) => StartKeepsInv(c, payer, receiver, dataService, rav, now);
    case ApplyUsage(delta, cost, now) => UsageKeepsInv(c, delta, cost, now);
    case TouchSession(at) => TouchKeepsInv(c, at);
    case Submit(sub, now) => SubmitKeepsInv(c, sub, now);
    case SubmitUnary(rav, signatureOk, authorized, now) => UnaryKeepsInv(c, rav, signatureOk, authorized, now);
  }

  lemma StepKeepsInv(c: Cell, step: Step)
    requires Inv(c)
    ensures Inv(Next(c, step))
  {
    if EvalStep(step) {
      EvalStepKeepsInv(c, step);
    } else if TransportStep(step) {
      TransportKeepsInv(c, step);
    } else if MarkStep(step) {
      MarkStepKeepsInv(c, step);
    } else {
      LedgerStepKeepsInv(c, step);
    }
  }

  lemma {:induction false} RunFromKeepsInv(c: Cell, steps: seq<Step>)
    requires Inv(c)
    ensures Inv(Exec(c, steps))
  {
    if steps != [] {
      RunFromKeepsInv(c, steps[..|steps| - 1]);
      StepKeepsInv(Exec(c, steps[..|steps| - 1]), steps[|steps| - 1]);
    }
  }

  /** Every reachable state satisfies the invariant. */
  lemma {:induction false} RunKeepsInv(threshold: nat, steps: seq<Step>)
    ensures Inv(Exec(Init(threshold), steps))
  {
    RunFromKeepsInv(Init(threshold), steps);
  }
}
