/** Escrow safety: with a fixed, known balance the provider never lets a session run past the escrow by
    more than what was metered, or promised in excess by the payer, since its last sufficient funds
    check. */
module Escrow {
  import opened Basics
  import opened Ledger
  import opened Protocol
  import opened ProtocolSafety
  import opened ProtocolTheorems

  /** The runs considered: every funds check sees `balance`. */
  predicate Sees(step: Step, balance: nat) {
    step.EvalBegin? ==> step.balance == Some(balance)
  }

  predicate AllSee(steps: seq<Step>, balance: nat) {
    forall step <- steps :: Sees(step, balance)
  }

  /** A request never asks for a voucher above the escrow. */
  predicate AsksWithin(m: Message, balance: nat) {
    m.RavRequest? ==> m.current.message.value + m.usage.cost <= balance
  }

  predicate DeliveryWithin(c: Cell, d: Delivery, balance: nat) {
    && AsksWithin(d.response.message, balance)
    && (d.pending.Some? ==> d.pending.value.baselineCost <= c.assessed)
  }

  predicate RequestsWithin(c: Cell, balance: nat) {
    && (c.slot.queued.Some? ==> AsksWithin(c.slot.queued.value.message, balance))
    && (c.slot.pending.Some? ==> c.slot.pending.value.baselineCost <= c.assessed)
    && (forall d <- c.sending :: DeliveryWithin(c, d, balance))
    && (forall d <- c.clearing :: DeliveryWithin(c, d, balance))
    && (forall ch <- c.channels :: forall r <- c.channels[ch] :: AsksWithin(r.message, balance))
  }

  /** A stop reports the exact shortfall of the snapshot it assessed. */
  predicate ExactShortfall(a: Assessment, surplus: int, metered: int, balance: nat) {
    && a.escrow == Some(balance)
    && a.projectedOutstanding == surplus + metered
    && a.minimumNeeded == Since(a.projectedOutstanding, balance)
    && (a.status == FundsInsufficient <==> a.projectedOutstanding > balance)
    && a.status != FundsUnknown
  }

  /** What the vouchers say beyond the escrow and the metered cost since the last sufficient check: an
      opening voucher above the escrow, and whatever unary calls added. */
  function NextExcess(c: Cell, step: Step, balance: nat, excess: nat): nat {
    var c' := Next(c, step);
    if c.session.None? || c'.session.None? then
      (if c'.session.Some? then Since(RavValue(c'.session.value), balance) else excess)
    else if step.EvalStore? && c.eval.Storing? && c.eval.assessment.status == FundsOk then 0
    else if step.SubmitUnary? && Surplus(c'.session.value) > Surplus(c.session.value) then
      excess + Surplus(c'.session.value) - Surplus(c.session.value)
    else excess
  }

  function Excess(c: Cell, steps: seq<Step>, balance: nat): nat {
    if steps == [] then 0
    else
      var front := steps[..|steps| - 1];
      NextExcess(Exec(c, front), steps[|steps| - 1], balance, Excess(c, front, balance))
  }

  predicate EscrowInv(c: Cell, balance: nat, excess: nat) {
    && RequestsWithin(c, balance)
    && (c.session.None? ==> c.assessed == 0)
    && (c.session.Some? ==>
          var s := c.session.value;
          && c.assessed <= s.totalCost
          && Surplus(s) + c.assessed <= balance + excess
          && (!c.eval.Free? ==>
                && c.assessed <= c.eval.snap.totalCost
                && ExactShortfall(c.eval.assessment, Surplus(s), c.eval.snap.totalCost, balance)
                && (!c.eval.Storing? && c.eval.assessment.status == FundsOk ==> c.eval.snap.totalCost == c.assessed))
          && (s.life.status == Terminated ==>
                && s.life.funds.Some?
                && s.life.funds.value.status == FundsInsufficient
                && s.life.funds.value.projectedOutstanding <= Surplus(s) + s.totalCost
                && ExactShortfall(s.life.funds.value, Surplus(s),
                                  s.life.funds.value.projectedOutstanding - Surplus(s), balance)))
  }

  /** The stop message quotes the balance that was seen and exactly what is missing from it. */
  lemma NeedMoreFundsExact(snap: Session, balance: nat)
    requires balance < ProjectedOutstanding(snap) < U256
    ensures var m := ControlMessage(snap, AssessFunds(snap, Some(balance)));
            && m.NeedMoreFunds? && m.outstanding == snap.rav
            && m.totalOutstanding == RavValue(snap)
            && m.escrowBalance == balance
            && m.escrowBalance + m.minimumNeeded == ProjectedOutstanding(snap)
  {
  }

  lemma DispatchWithinEscrow(c: Cell, balance: nat, excess: nat)
    requires Inv(c) && EscrowInv(c, balance, excess)
    ensures EscrowInv(DoEvalDispatch(c), balance, excess)
  {
  }

  lemma AcceptWithinEscrow(c: Cell, p: Pending, rav: SignedRav, now: nat, balance: nat, excess: nat)
    requires Inv(c) && EscrowInv(c, balance, excess) && Meets(c, p, rav) && Accept(c, p, rav, now).Ok?
    ensures EscrowInv(Accept(c, p, rav, now).value, balance, excess)
  {
  }

  lemma SubmitWithinEscrow(c: Cell, sub: Submission, now: nat, balance: nat, excess: nat)
    requires Inv(c) && EscrowInv(c, balance, excess)
    ensures EscrowInv(HandleSubmission(c, sub, now).0, balance, excess)
  {
    SubmissionAccepts(c, sub, now);
    if HandleSubmission(c, sub, now).1 == Continue {
      AcceptWithinEscrow(c, c.slot.pending.value, sub.voucher.rav, now, balance, excess);
    }
  }

  lemma StreamWithinEscrow(c: Cell, step: Step, balance: nat, excess: nat)
    requires Inv(c) && EscrowInv(c, balance, excess)
    requires step.Bind? || step.Take? || step.Clear? || step.Unbind? || step.FundsAck?
    ensures EscrowInv(Next(c, step), balance, excess)
  {
  }

  lemma SendWithinEscrow(c: Cell, d: Delivery, balance: nat, excess: nat)
    requires Inv(c) && EscrowInv(c, balance, excess)
    ensures EscrowInv(DoSend(c, d), balance, excess)
  {
  }

  lemma LedgerWithinEscrow(c: Cell, step: Step, balance: nat, excess: nat)
    requires Inv(c) && EscrowInv(c, balance, excess) && Sees(step, balance)
    requires step.Start? || step.ApplyUsage? || step.TouchSession?
    ensures EscrowInv(Next(c, step), balance, NextExcess(c, step, balance, excess))
  {
  }

  lemma EvalWithinEscrow(c: Cell, step: Step, balance: nat, excess: nat)
    requires Inv(c) && EscrowInv(c, balance, excess) && Sees(step, balance)
    requires step.EvalBegin? || step.EvalClear? || step.EvalCheck?
    ensures EscrowInv(Next(c, step), balance, excess)
  {
  }

  lemma StoreWithinEscrow(c: Cell, balance: nat, excess: nat)
    requires Inv(c) && EscrowInv(c, balance, excess)
    ensures EscrowInv(DoEvalStore(c), balance, NextExcess(c, EvalStore, balance, excess))
  {
  }

  lemma MarkWithinEscrow(c: Cell, step: Step, balance: nat, excess: nat)
    requires EscrowInv(c, balance, excess)
    requires step.OpMarkPending? || step.OpMarkCollected? || step.OpMarkRetryable?
    ensures EscrowInv(Next(c, step), balance, excess)
  {
  }

  lemma UnaryWithinEscrow(c: Cell, step: Step, balance: nat, excess: nat)
    requires Inv(c) && EscrowInv(c, balance, excess) && step.SubmitUnary?
    ensures EscrowInv(Next(c, step), balance, NextExcess(c, step, balance, excess))
  {
    if c.session.Some? {
      UnaryMovesLedger(c, step.rav, step.signatureOk, step.authorized, step.now);
    }
  }

  /** A step other than these three leaves the excess as it is, unless it creates the session. */
  lemma ExcessKept(c: Cell, step: Step, balance: nat, excess: nat)
    requires Inv(c) && !step.Start? && !step.EvalStore? && !step.SubmitUnary?
    ensures NextExcess(c, step, balance, excess) == excess
  {
  }

  lemma StepWithinEscrow(c: Cell, step: Step, balance: nat, excess: nat)
    requires Inv(c) && EscrowInv(c, balance, excess) && Sees(step, balance)
    ensures EscrowInv(Next(c, step), balance, NextExcess(c, step, balance, excess))
  {
    if step.Start? || step.ApplyUsage? || step.TouchSession? {
      LedgerWithinEscrow(c, step, balance, excess);
    } else if step.EvalStore? {
      StoreWithinEscrow(c, balance, excess);
    } else if step.SubmitUnary? {
      UnaryWithinEscrow(c, step, balance, excess);
    } else {
      ExcessKept(c, step, balance, excess);
      OtherWithinEscrow(c, step, balance, excess);
    }
  }

  lemma OtherWithinEscrow(c: Cell, step: Step, balance: nat, excess: nat)
    requires Inv(c) && EscrowInv(c, balance, excess) && Sees(step, balance)
    requires !step.Start? && !step.ApplyUsage? && !step.TouchSession? && !step.EvalStore? && !step.SubmitUnary?
    ensures EscrowInv(Next(c, step), balance, excess)
  {
    if EvalStep(step) && !step.EvalDispatch? {
      EvalWithinEscrow(c, step, balance, excess);
    } else if step.EvalDispatch? {
      DispatchWithinEscrow(c, balance, excess);
    } else if step.Submit? {
      SubmitWithinEscrow(c, step.submission, step.now, balance, excess);
    } else if step.Send? {
      SendWithinEscrow(c, step.delivery, balance, excess);
    } else if MarkStep(step) {
      MarkWithinEscrow(c, step, balance, excess);
    } else {
      StreamWithinEscrow(c, step, balance, excess);
    }
  }

  lemma {:induction false} RunWithinEscrow(threshold: nat, steps: seq<Step>, balance: nat)
    requires AllSee(steps, balance)
    ensures var c := Exec(Init(threshold), steps);
            Inv(c) && EscrowInv(c, balance, Excess(Init(threshold), steps, balance))
  {
    RunKeepsInv(threshold, steps);
    if steps != [] {
      var front := steps[..|steps| - 1];
      RunWithinEscrow(threshold, front, balance);
      StepWithinEscrow(Exec(Init(threshold), front), steps[|steps| - 1], balance,
                       Excess(Init(threshold), front, balance));
    }
  }

  /** In every run whose checks see a fixed balance: no request, wherever it is, asks for more than the
      escrow; the voucher plus the unbaselined cost exceeds the escrow by at most what was metered and
      what was promised in excess since the last sufficient check; and a stop reports its exact,
      positive shortfall, bounded in the same way. */
  lemma {:induction false} EscrowSafety(threshold: nat, steps: seq<Step>, balance: nat)
    requires AllSee(steps, balance)
    ensures var c, excess := Exec(Init(threshold), steps), Excess(Init(threshold), steps, balance);
            && RequestsWithin(c, balance)
            && (c.session.Some? ==>
                  var s := c.session.value;
                  && ProjectedOutstanding(s) <= balance + (s.totalCost - c.assessed) + excess
                  && (s.life.status == Terminated ==>
                        && s.life.funds.Some?
                        && 0 < s.life.funds.value.minimumNeeded <= s.totalCost - c.assessed + excess
                        && s.life.funds.value.projectedOutstanding == balance + s.life.funds.value.minimumNeeded))
  {
    RunWithinEscrow(threshold, steps, balance);
  }

  /** Vouchers accepted on the stream only, from an opening voucher that the escrow covers. */
  predicate StreamOnly(step: Step, balance: nat) {
    !step.SubmitUnary? && (step.Start? && step.initial.Some? ==> step.initial.value.message.value <= balance)
  }

  /** Then nothing is ever promised in excess, and the bound is what was metered since the last check. */
  lemma {:induction false} StreamHasNoExcess(threshold: nat, steps: seq<Step>, balance: nat)
    requires forall step <- steps :: StreamOnly(step, balance)
    ensures Excess(Init(threshold), steps, balance) == 0
  {
    if steps != [] {
      var front, last := steps[..|steps| - 1], steps[|steps| - 1];
      StreamHasNoExcess(threshold, front, balance);
      RunKeepsInv(threshold, front);
      assert last in steps;
      StreamAddsNone(Exec(Init(threshold), front), last, balance);
    }
  }

  lemma StreamAddsNone(c: Cell, step: Step, balance: nat)
    requires Inv(c) && StreamOnly(step, balance)
    ensures NextExcess(c, step, balance, 0) == 0
  {
  }

  // ---- Sequential reports ----

  /** Steps that may happen around a report without metering anything themselves. */
  predicate Quiet(step: Step) {
    !step.ApplyUsage? && !step.Start? && !step.SubmitUnary?
  }

  predicate AllQuiet(steps: seq<Step>, balance: nat) {
    forall step <- steps :: Quiet(step) && Sees(step, balance)
  }

  /** Everything metered has been found covered, is about to be, or the session is stopped. */
  predicate Covered(c: Cell) {
    c.session.Some? &&
    (|| !IsActive(c.session.value)
     || c.assessed == c.session.value.totalCost
     || (c.eval.Storing? && c.eval.snap.totalCost == c.session.value.totalCost))
  }

  /** Snapshots in use are either already found covered or current, and a stop quotes current figures. */
  predicate UpToDate(c: Cell) {
    && c.session.Some?
    && (!c.eval.Free? ==> c.eval.snap.totalCost <= c.assessed || c.eval.snap.totalCost == c.session.value.totalCost)
    && (!IsActive(c.session.value) ==>
          c.session.value.life.funds.Some?
          && c.session.value.life.funds.value.projectedOutstanding == ProjectedOutstanding(c.session.value))
  }

  /** What a step that meters nothing keeps. */
  predicate QuietMove(c: Cell, c': Cell) {
    && UpToDate(c) && UpToDate(c')
    && c'.session.value.totalCost == c.session.value.totalCost
    && c.assessed <= c'.assessed
    && (Covered(c) ==> Covered(c'))
  }

  lemma QuietSubmit(c: Cell, sub: Submission, now: nat, balance: nat)
    requires Inv(c) && EscrowInv(c, balance, 0) && UpToDate(c)
    ensures QuietMove(c, HandleSubmission(c, sub, now).0)
  {
    SubmissionAccepts(c, sub, now);
    if HandleSubmission(c, sub, now).1 == Continue {
      QuietAccept(c, c.slot.pending.value, sub.voucher.rav, now, balance);
    }
  }

  lemma QuietAccept(c: Cell, p: Pending, rav: SignedRav, now: nat, balance: nat)
    requires Inv(c) && EscrowInv(c, balance, 0) && UpToDate(c) && Meets(c, p, rav) && Accept(c, p, rav, now).Ok?
    ensures QuietMove(c, Accept(c, p, rav, now).value)
  {
  }

  lemma QuietEval(c: Cell, step: Step, balance: nat)
    requires Inv(c) && EscrowInv(c, balance, 0) && UpToDate(c) && Sees(step, balance)
    requires step.EvalBegin? || step.EvalStore?
    ensures QuietMove(c, Next(c, step))
    ensures step.EvalBegin? && c.eval.Free? ==> Covered(Next(c, step))
    ensures step.EvalStore? && Covered(c) && IsActive(Next(c, step).session.value) ==>
              Next(c, step).assessed == c.session.value.totalCost
  {
  }

  lemma QuietOther(c: Cell, step: Step)
    requires UpToDate(c) && Quiet(step)
    requires !step.Submit? && !step.EvalBegin? && !step.EvalStore?
    ensures QuietMove(c, Next(c, step))
  {
  }

  lemma QuietStep(c: Cell, step: Step, balance: nat)
    requires Inv(c) && EscrowInv(c, balance, 0) && UpToDate(c) && Quiet(step) && Sees(step, balance)
    ensures var c' := Next(c, step);
            Inv(c') && EscrowInv(c', balance, 0) && QuietMove(c, c')
  {
    StepKeepsInv(c, step);
    StepWithinEscrow(c, step, balance, 0);
    StreamAddsNone(c, step, balance);
    match step
    case Submit(sub, now) => QuietSubmit(c, sub, now, balance);
    case EvalBegin(_, _) => QuietEval(c, step, balance);
    case EvalStore => QuietEval(c, step, balance);
    case _ => QuietOther(c, step);
  }

  lemma {:induction false} QuietRun(c: Cell, steps: seq<Step>, balance: nat)
    requires Inv(c) && EscrowInv(c, balance, 0) && UpToDate(c) && AllQuiet(steps, balance)
    ensures var c' := Exec(c, steps);
            Inv(c') && EscrowInv(c', balance, 0) && QuietMove(c, c')
  {
    if steps != [] {
      var front := steps[..|steps| - 1];
      QuietRun(c, front, balance);
      QuietStep(Exec(c, front), steps[|steps| - 1], balance);
    }
  }

  /** One report of a metered event: the usage is applied, and the evaluation that follows it begins
      once the lock is free and stores its verdict. Anything that meters nothing may happen before,
      between and after. */
  datatype Round = Round(delta: Counters, cost: nat, now: nat, before: seq<Step>, between: seq<Step>, after: seq<Step>)

  function Applied(c: Cell, r: Round): Cell {
    Exec(Next(c, ApplyUsage(r.delta, r.cost, r.now)), r.before)
  }

  function Reported(c: Cell, r: Round, balance: nat): Cell {
    var begun := Next(Applied(c, r), EvalBegin(Some(balance), r.now));
    Exec(Next(Exec(begun, r.between), EvalStore), r.after)
  }

  predicate RoundOk(c: Cell, r: Round, balance: nat) {
    && AllQuiet(r.before, balance) && AllQuiet(r.between, balance) && AllQuiet(r.after, balance)
    && Applied(c, r).eval.Free?
  }

  /** At a report boundary an active session's cost is fully covered. */
  predicate Settled(c: Cell, balance: nat) {
    && Inv(c) && EscrowInv(c, balance, 0) && c.session.Some?
    && IsActive(c.session.value)
    && c.assessed == c.session.value.totalCost
  }

  lemma {:induction false} QuietKeepsStop(c: Cell, steps: seq<Step>)
    requires Inv(c) && c.session.Some?
    ensures Exec(c, steps).session.Some?
    ensures !IsActive(c.session.value) ==> !IsActive(Exec(c, steps).session.value)
  {
    LedgerRun(c, steps);
    if !IsActive(c.session.value) { StopIsFinal(c, steps); }
  }

  lemma UsageThenQuiet(c: Cell, r: Round, balance: nat)
    requires Settled(c, balance) && RoundOk(c, r, balance)
    ensures var c2 := Applied(c, r);
            && Inv(c2) && EscrowInv(c2, balance, 0) && UpToDate(c2)
            && c2.session.value.totalCost == c.session.value.totalCost + r.cost
            && c.assessed <= c2.assessed
  {
    var usage := ApplyUsage(r.delta, r.cost, r.now);
    StepKeepsInv(c, usage);
    StepWithinEscrow(c, usage, balance, 0);
    StreamAddsNone(c, usage, balance);
    assert UpToDate(Next(c, usage));
    QuietRun(Next(c, usage), r.before, balance);
  }

  lemma EvaluateAmongQuiet(c: Cell, between: seq<Step>, now: nat, balance: nat)
    requires Inv(c) && EscrowInv(c, balance, 0) && UpToDate(c) && c.eval.Free?
    requires AllQuiet(between, balance)
    ensures var c' := Next(Exec(Next(c, EvalBegin(Some(balance), now)), between), EvalStore);
            && Inv(c') && EscrowInv(c', balance, 0) && QuietMove(c, c')
            && (IsActive(c'.session.value) ==> c'.assessed == c'.session.value.totalCost)
  {
    var begin := EvalBegin(Some(balance), now);
    QuietEval(c, begin, balance);
    QuietStep(c, begin, balance);
    QuietRun(Next(c, begin), between, balance);
    var c4 := Exec(Next(c, begin), between);
    QuietEval(c4, EvalStore, balance);
    QuietStep(c4, EvalStore, balance);
  }

  /** How a report leaves a session, given the cost of the event. */
  predicate RoundEnds(c: Cell, cost: nat, balance: nat) {
    && c.session.Some?
    && var s := c.session.value;
       if IsActive(s) then Settled(c, balance) && ProjectedOutstanding(s) <= balance
       else && s.life.funds.Some?
            && ProjectedOutstanding(s) == balance + s.life.funds.value.minimumNeeded
            && 0 < s.life.funds.value.minimumNeeded <= cost
  }

  lemma RoundSettles(c: Cell, applied: Cell, stored: Cell, after: seq<Step>, cost: nat, balance: nat)
    requires Settled(c, balance) && Inv(stored) && EscrowInv(stored, balance, 0) && AllQuiet(after, balance)
    requires applied.session.Some? && UpToDate(applied) &&
             applied.session.value.totalCost == c.session.value.totalCost + cost
    requires c.assessed <= applied.assessed && QuietMove(applied, stored)
    requires IsActive(stored.session.value) ==> stored.assessed == stored.session.value.totalCost
    ensures RoundEnds(Exec(stored, after), cost, balance)
  {
    QuietRun(stored, after, balance);
    QuietKeepsStop(stored, after);
  }

  /** A session that is active after a report has voucher plus unbaselined cost within the escrow; one
      that the report stopped overran by at most that event's cost, and was told the exact shortfall. */
  lemma ReportRound(c: Cell, r: Round, balance: nat)
    requires Settled(c, balance) && RoundOk(c, r, balance)
    ensures RoundEnds(Reported(c, r, balance), r.cost, balance)
  {
    UsageThenQuiet(c, r, balance);
    EvaluateAmongQuiet(Applied(c, r), r.between, r.now, balance);
    var stored := Next(Exec(Next(Applied(c, r), EvalBegin(Some(balance), r.now)), r.between), EvalStore);
    RoundSettles(c, Applied(c, r), stored, r.after, r.cost, balance);
  }

  /** Reports one after the other, for as long as the session stays active. */
  predicate RoundsOk(c: Cell, rs: seq<Round>, balance: nat)
    decreases |rs|
  {
    rs == [] ||
    (RoundOk(c, rs[0], balance) &&
     (Reported(c, rs[0], balance).session.Some? && IsActive(Reported(c, rs[0], balance).session.value) ==>
        RoundsOk(Reported(c, rs[0], balance), rs[1..], balance)))
  }

  /** Every report leaves the session covered, up to the one that stops it with its exact shortfall. */
  predicate RoundsEnd(c: Cell, rs: seq<Round>, balance: nat)
    decreases |rs|
  {
    rs == [] ||
    (var c' := Reported(c, rs[0], balance);
     RoundEnds(c', rs[0].cost, balance) && (IsActive(c'.session.value) ==> RoundsEnd(c', rs[1..], balance)))
  }

  lemma {:induction false} SequentialReports(c: Cell, rs: seq<Round>, balance: nat)
    requires Settled(c, balance) && RoundsOk(c, rs, balance)
    ensures RoundsEnd(c, rs, balance)
    decreases |rs|
  {
    if rs != [] {
      var c' := Reported(c, rs[0], balance);
      ReportRound(c, rs[0], balance);
      if IsActive(c'.session.value) {
        SequentialReports(c', rs[1..], balance);
      }
    }
  }
}
