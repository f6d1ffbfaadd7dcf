/** Consequences of the protocol invariant for whole runs: conservation, finality of a payment stop,
    agreement of vouchers and settlement records, and the fate of requests and late deliveries. */
module ProtocolTheorems {
  import opened Basics
  import opened Ledger
  import opened Collections
  import opened Protocol
  import opened ProtocolSafety

  // ---- Conservation ----

  predicate NoUnary(steps: seq<Step>) {
    forall step <- steps :: !step.SubmitUnary?
  }

  /** How a step may move the ledger. */
  predicate LedgerMoves(s: Session, s': Session, unary: bool) {
    && s.totalCost <= s'.totalCost
    && RavValue(s) <= RavValue(s')
    && (s'.totalCost < U256 ==> Surplus(s) <= Surplus(s'))
    && (s'.totalCost < U256 && !unary ==> Surplus(s) == Surplus(s'))
  }

  lemma AcceptMovesLedger(c: Cell, p: Pending, rav: SignedRav, now: nat)
    requires Inv(c) && Meets(c, p, rav) && Accept(c, p, rav, now).Ok?
    ensures var c' := Accept(c, p, rav, now).value;
            c'.session.Some? && LedgerMoves(c.session.value, c'.session.value, false)
  {
  }

  lemma SubmitMovesLedger(c: Cell, sub: Submission, now: nat)
    requires Inv(c) && c.session.Some?
    ensures var c' := HandleSubmission(c, sub, now).0;
            c'.session.Some? && LedgerMoves(c.session.value, c'.session.value, false)
  {
    SubmissionAccepts(c, sub, now);
    if HandleSubmission(c, sub, now).1 == Continue {
      AcceptMovesLedger(c, c.slot.pending.value, sub.voucher.rav, now);
    }
  }

  lemma OtherMovesLedger(c: Cell, step: Step)
    requires c.session.Some? && !step.Submit? && !step.SubmitUnary?
    ensures Next(c, step).session.Some?
    ensures LedgerMoves(c.session.value, Next(c, step).session.value, false)
  {
  }

  lemma LedgerStep(c: Cell, step: Step)
    requires Inv(c) && c.session.Some?
    ensures Next(c, step).session.Some?
    ensures LedgerMoves(c.session.value, Next(c, step).session.value, step.SubmitUnary?)
  {
    if step.Submit? {
      SubmitMovesLedger(c, step.submission, step.now);
    } else if step.SubmitUnary? {
      UnaryMovesLedger(c, step.rav, step.signatureOk, step.authorized, step.now);
    } else {
      OtherMovesLedger(c, step);
    }
  }

  lemma UnaryMovesLedger(c: Cell, rav: SignedRav, signatureOk: bool, authorized: bool, now: nat)
    requires Inv(c) && c.session.Some?
    ensures var c' := HandleUnary(c, rav, signatureOk, authorized, now).0;
            c'.session.Some? && LedgerMoves(c.session.value, c'.session.value, true)
  {
  }

  lemma {:induction false} LedgerRun(c: Cell, steps: seq<Step>)
    requires Inv(c) && c.session.Some?
    ensures Exec(c, steps).session.Some?
    ensures var s, s' := c.session.value, Exec(c, steps).session.value;
            && s.totalCost <= s'.totalCost
            && RavValue(s) <= RavValue(s')
            && (s'.totalCost < U256 ==> Surplus(s) <= Surplus(s'))
            && (s'.totalCost < U256 && NoUnary(steps) ==> Surplus(s) == Surplus(s'))
  {
    if steps != [] {
      var front, last := steps[..|steps| - 1], steps[|steps| - 1];
      LedgerRun(c, front);
      RunFromKeepsInv(c, front);
      LedgerStep(Exec(c, front), last);
    }
  }

  /** Whatever happens after a session starts with an initial voucher of value v: without the unary
      call, voucher minus baseline stays v, including when usage lands between a request and its
      acceptance; with it the difference never falls. The voucher never loses value. */
  lemma Conservation(threshold: nat, before: seq<Step>, start: Step, after: seq<Step>)
    requires start.Start? && Exec(Init(threshold), before).session.None?
    requires Next(Exec(Init(threshold), before), start).session.Some?
    ensures var initial := if start.initial.None? then 0 else start.initial.value.message.value;
            var last := Exec(Next(Exec(Init(threshold), before), start), after);
            && last.session.Some?
            && initial <= RavValue(last.session.value)
            && (last.session.value.totalCost < U256 ==>
                  && initial <= Surplus(last.session.value)
                  && (NoUnary(after) ==> Surplus(last.session.value) == initial))
  {
    var c := Exec(Init(threshold), before);
    RunKeepsInv(threshold, before);
    StepKeepsInv(c, start);
    LedgerRun(Next(c, start), after);
  }

  // ---- A payment stop is final ----

  lemma StopStep(c: Cell, step: Step)
    requires Inv(c) && c.session.Some? && c.session.value.life.status == Terminated
    ensures Next(c, step).session.Some?
    ensures var s, s' := c.session.value, Next(c, step).session.value;
            s'.life == s.life && s'.rav == s.rav && s'.baseline == s.baseline && s'.baselineCost == s.baselineCost
  {
  }

  /** From the write that ends a session, no interleaving of evaluators, touches, usage, deliveries or
      submissions revives it, changes why it ended, or moves its voucher or baseline. */
  lemma {:induction false} StopIsFinal(c: Cell, steps: seq<Step>)
    requires Inv(c) && c.session.Some? && c.session.value.life.status == Terminated
    ensures Exec(c, steps).session.Some?
    ensures var s, s' := c.session.value, Exec(c, steps).session.value;
            s'.life == s.life && s'.rav == s.rav && s'.baseline == s.baseline && s'.baselineCost == s.baselineCost
  {
    if steps != [] {
      StopIsFinal(c, steps[..|steps| - 1]);
      RunFromKeepsInv(c, steps[..|steps| - 1]);
      StopStep(Exec(c, steps[..|steps| - 1]), steps[|steps| - 1]);
    }
  }

  // ---- What is accepted ----

  /** The submission answers the pending request to the unit, and is the payer's own. */
  predicate AnswersExactly(sub: Submission, p: Pending, s: Session) {
    && sub.usage == Some(ClaimedUsage(p.usage.counters, Some(p.usage.cost)))
    && sub.voucher.Given? && sub.signatureOk && sub.authorized
    && var m := sub.voucher.rav.message;
       && m.tuple.payer == s.payer && m.tuple.serviceProvider == s.receiver && m.tuple.dataService == s.dataService
       && m.value == p.target
  }

  predicate BeingCollected(records: map<Tuple, Record>, rav: SignedRav) {
    var t := rav.message.tuple;
    t in records && records[t].state == CollectPending && records[t].value != rav.message.value
  }

  /** A stream submission is accepted if and only if it answers the pending request exactly and its
      record is not being collected at another value; then the session holds exactly that voucher and
      the request's baseline, and nothing is pending. Anything else changes nothing. */
  lemma AcceptedIffExact(c: Cell, sub: Submission, now: nat)
    requires Inv(c) && c.session.Some? && c.eval.Free?
    ensures var (c', reply) := HandleSubmission(c, sub, now);
            && (reply == Continue <==>
                  && c.slot.pending.Some? && AnswersExactly(sub, c.slot.pending.value, c.session.value)
                  && !BeingCollected(c.records, sub.voucher.rav))
            && (reply != Continue ==> c' == c && reply.Stop?)
            && (reply == Continue ==>
                  && c'.slot == c.slot.(pending := None, queued := None)
                  && c'.session.Some? && c'.session.value.rav == Some(sub.voucher.rav)
                  && c'.session.value.baseline == c.slot.pending.value.baseline
                  && c'.session.value.baselineCost == c.slot.pending.value.baselineCost
                  && c'.session.value.totalCost == c.session.value.totalCost)
  {
    SubmissionAccepts(c, sub, now);
    if c.slot.pending.Some? && sub.voucher.Given? {
      var p := c.slot.pending.value;
      if sub.voucher.rav.message.value == p.target {
        CommitFailsOnlyWhilePending(c, sub.voucher.rav, p.baseline, p.baselineCost, now);
      }
    }
  }

  /** The unary call says yes exactly to an active session's own voucher that covers all metered cost
      while no request is pending. It stores the voucher unless the record is being collected at
      another value, and says yes even then. */
  lemma UnaryAcceptedIff(c: Cell, rav: SignedRav, signatureOk: bool, authorized: bool, now: nat)
    requires Inv(c) && c.session.Some? && c.eval.Free?
    ensures var (c', accepted) := HandleUnary(c, rav, signatureOk, authorized, now);
            var s := c.session.value;
            && (accepted <==>
                  && IsActive(s) && c.slot.pending.None? && signatureOk && authorized
                  && rav.message.tuple.payer == s.payer && rav.message.tuple.serviceProvider == s.receiver
                  && rav.message.value >= ProjectedOutstanding(s))
            && (!accepted || BeingCollected(c.records, rav) ==> c' == c)
            && (accepted && !BeingCollected(c.records, rav) ==>
                  && c'.session.Some? && c'.session.value.rav == Some(rav)
                  && c'.session.value.baseline == s.used && c'.session.value.baselineCost == s.totalCost
                  && c'.session.value.used == s.used && c'.session.value.totalCost == s.totalCost
                  && c'.slot == c.slot)
  {
    if HandleUnary(c, rav, signatureOk, authorized, now).1 {
      CommitFailsOnlyWhilePending(c, rav, c.session.value.used, c.session.value.totalCost, now);
    }
  }

  // ---- Vouchers and settlement records ----

  /** In every reachable state the current voucher has a record of its value under its key, every record
      is filed under its own voucher's tuple at that voucher's value, and none exceeds the current one. */
  lemma {:induction false} RecordsMatchSession(threshold: nat, steps: seq<Step>)
    ensures var c := Exec(Init(threshold), steps);
            && (forall t <- c.records ::
                  c.records[t].rav.message.tuple == t && c.records[t].value == c.records[t].rav.message.value)
            && (c.session.Some? && c.session.value.rav.Some? ==>
                  var m := c.session.value.rav.value.message;
                  && m.tuple in c.records && c.records[m.tuple].value == m.value
                  && (forall t <- c.records :: c.records[t].value <= m.value))
            && (c.session.None? || c.session.value.rav.None? ==> c.records == map[])
  {
    RunKeepsInv(threshold, steps);
  }

  /** A commit fails exactly when the record under the voucher's key is being collected at another
      value: the stale-collected refusal cannot happen. */
  lemma CommitFailsOnlyWhilePending(c: Cell, rav: SignedRav, baseline: Counters, baselineCost: nat, now: nat)
    requires Inv(c) && c.session.Some? && RavValue(c.session.value) <= rav.message.value
    ensures var t := rav.message.tuple;
            var conflict := t in c.records && c.records[t].state == CollectPending &&
                            c.records[t].value != rav.message.value;
            var result := Commit(c, rav, baseline, baselineCost, now);
            && (result.Err? <==> conflict)
            && (result.Err? ==> result.error == PendingConflict)
            && (result.Ok? ==> result.value.records[t].value == rav.message.value)
  {
  }

  /** A record under a key moves up or not at all; while it is being collected its value is frozen. */
  predicate RecordMoves(r: Record, r': Record) {
    && r.value <= r'.value
    && (r.state == CollectPending ==> r'.value == r.value && r'.rav == r.rav)
    && (r.value < r'.value ==> r'.state == Collectible)
    && (r.value == r'.value ==> LegalMove(r, r'))
  }

  /** At one value: an attempt is counted when it starts, ends collected or retryable, and a collected
      record stays as it is. */
  predicate LegalMove(r: Record, r': Record) {
    match r.state
    case Collected => r' == r
    case CollectPending =>
      r' == r || ((r'.state == Collected || r'.state == CollectFailedRetryable) && r'.attempts == r.attempts)
    case _ =>
      || r' == r || (r'.state == Collectible && r'.attempts == 0)
      || (r'.state == CollectPending && r'.attempts == r.attempts + 1)
  }

  lemma CommitMovesRecords(c: Cell, rav: SignedRav, baseline: Counters, baselineCost: nat, now: nat, t: Tuple)
    requires Inv(c) && t in c.records && c.session.Some? && RavValue(c.session.value) <= rav.message.value
    ensures var result := Commit(c, rav, baseline, baselineCost, now);
            result.Ok? ==> t in result.value.records && RecordMoves(c.records[t], result.value.records[t])
  {
  }

  lemma SubmitMovesRecords(c: Cell, sub: Submission, now: nat, t: Tuple)
    requires Inv(c) && t in c.records
    ensures var c' := HandleSubmission(c, sub, now).0;
            t in c'.records && RecordMoves(c.records[t], c'.records[t])
  {
    SubmissionAccepts(c, sub, now);
    if HandleSubmission(c, sub, now).1 == Continue {
      var p := c.slot.pending.value;
      CommitMovesRecords(c, sub.voucher.rav, p.baseline, p.baselineCost, now, t);
    }
  }

  lemma UnaryMovesRecords(c: Cell, rav: SignedRav, signatureOk: bool, authorized: bool, now: nat, t: Tuple)
    requires Inv(c) && t in c.records
    ensures var c' := HandleUnary(c, rav, signatureOk, authorized, now).0;
            t in c'.records && RecordMoves(c.records[t], c'.records[t])
  {
    if HandleUnary(c, rav, signatureOk, authorized, now).1 {
      CommitMovesRecords(c, rav, c.session.value.used, c.session.value.totalCost, now, t);
    }
  }

  lemma MarkMovesRecords(c: Cell, step: Step, t: Tuple)
    requires MarkStep(step) && t in c.records
    ensures t in Next(c, step).records && RecordMoves(c.records[t], Next(c, step).records[t])
  {
  }

  lemma OtherKeepsRecords(c: Cell, step: Step)
    requires !MarkStep(step) && !step.Start? && !step.Submit? && !step.SubmitUnary?
    ensures Next(c, step).records == c.records
  {
  }

  lemma {:induction false} RecordStep(c: Cell, step: Step, t: Tuple)
    requires Inv(c) && t in c.records
    ensures t in Next(c, step).records && RecordMoves(c.records[t], Next(c, step).records[t])
  {
    if step.Submit? {
      SubmitMovesRecords(c, step.submission, step.now, t);
    } else if step.SubmitUnary? {
      UnaryMovesRecords(c, step.rav, step.signatureOk, step.authorized, step.now, t);
    } else if MarkStep(step) {
      MarkMovesRecords(c, step, t);
    } else if !step.Start? {
      OtherKeepsRecords(c, step);
    }
  }

  /** The value under a settlement key never falls, so it never drops below a value once collected. */
  lemma {:induction false} RecordsOnlyGrow(c: Cell, steps: seq<Step>, t: Tuple)
    requires Inv(c) && t in c.records
    ensures t in Exec(c, steps).records
    ensures c.records[t].value <= Exec(c, steps).records[t].value
  {
    if steps != [] {
      RecordsOnlyGrow(c, steps[..|steps| - 1], t);
      RunFromKeepsInv(c, steps[..|steps| - 1]);
      RecordStep(Exec(c, steps[..|steps| - 1]), steps[|steps| - 1], t);
    }
  }

  // ---- Requests and late deliveries ----

  /** In every reachable state a pending request with nothing queued on a bound session was placed on
      that stream's channel, so the stream it is asked on is the one that must answer it. */
  lemma {:induction false} NoStrandedRequest(threshold: nat, steps: seq<Step>)
    ensures var slot, placed := Exec(Init(threshold), steps).slot, Exec(Init(threshold), steps).placed;
            slot.events.Some? && slot.pending.Some? && slot.queued.None? ==>
              (slot.events.value, slot.pending.value.id) in placed
  {
    RunKeepsInv(threshold, steps);
  }

  /** A delivery that reaches an old channel, or carries an old response, leaves the slot alone. One
      that does match removes only a response that is on the bound channel, and brings a cleared
      request back exactly in the window of an evaluation that is about to queue its stop. */
  lemma LateDelivery(c: Cell, d: Delivery)
    requires Inv(c) && d in c.clearing
    ensures var slot, slot' := c.slot, DoClear(c, d).slot;
            && (slot.events != Some(d.chan) || slot.queued != Some(d.response) ==> slot' == slot)
            && (slot' != slot ==> (d.chan, d.response.id) in c.placed && slot.events == Some(d.chan))
            && (slot.pending.Some? ==> slot'.pending == slot.pending)
            && (slot.pending.None? ==>
                  && (slot'.pending.Some? <==>
                        slot.events == Some(d.chan) && slot.queued == Some(d.response) && d.pending.Some?)
                  && (slot'.pending.Some? ==> Stopping(c.eval)))
  {
  }

  ghost predicate Reachable(c: Cell) {
    exists threshold: nat, steps: seq<Step> :: c == Exec(Init(threshold), steps)
  }

  lemma ReachNext(c: Cell, step: Step) returns (c': Cell)
    requires Reachable(c)
    ensures c' == Next(c, step) && Reachable(c')
  {
    c' := Next(c, step);
    var threshold: nat, steps: seq<Step> :| c == Exec(Init(threshold), steps);
    assert (steps + [step])[..|steps|] == steps;
    assert c' == Exec(Init(threshold), steps + [step]);
  }

  lemma MeteredOnStream() returns (c: Cell)
    ensures Reachable(c) && c.eval.Free? && c.threshold == 10 && c.nextId == 1
    ensures c.slot == Slot(Some(0), None, None) && c.channels.Keys == {0}
    ensures c.session.Some? && IsActive(c.session.value) && c.session.value.rav.Some?
    ensures RavValue(c.session.value) == 0 && c.session.value.baselineCost == 0 && c.session.value.totalCost == 10
  {
    var rav := SignedRav(Rav(Tuple(0, "payer", "provider", "service"), 1, 0), 7);
    c := Init(10);
    assert c == Exec(Init(10), []);
    c := ReachNext(c, Start("payer", "provider", "service", Some(rav), 1));
    c := ReachNext(c, Bind);
    c := ReachNext(c, ApplyUsage(Counters(1, 1, 1), 10, 2));
  }

  lemma RequestDispatched() returns (c: Cell)
    ensures Reachable(c) && c.eval.Free? && c.session.Some? && IsActive(c.session.value)
    ensures RavValue(c.session.value) == 0 && c.session.value.baselineCost == 0 && c.session.value.totalCost == 10
    ensures c.slot.events == Some(0) && c.slot.pending.Some? && c.slot.queued.Some? && c.nextId == 2
  {
    c := MeteredOnStream();
    var before := c.session.value;
    c := ReachNext(c, EvalBegin(Some(100), 3));
    assert c.eval.Storing? && c.eval.assessment.status == FundsOk;
    c := ReachNext(c, EvalStore);
    assert c.session.value.(life := before.life, updatedAt := before.updatedAt) == before;
    assert c.eval.Checking?;
    c := ReachNext(c, EvalCheck);
    c := ReachNext(c, EvalDispatch);
  }

  /** The unary call can say yes and store nothing: a record of 0 is being collected when a voucher of 5
      arrives. */
  lemma UnaryYesStoresNothing() returns (c: Cell, rav: SignedRav)
    ensures Reachable(c) && c.session.Some? && RavValue(c.session.value) == 0 && rav.message.value == 5
    ensures HandleUnary(c, rav, true, true, 3) == (c, true)
  {
    var t := Tuple(0, "payer", "provider", "service");
    var first := SignedRav(Rav(t, 1, 0), 7);
    rav := SignedRav(Rav(t, 2, 5), 8);
    c := Init(10);
    assert c == Exec(Init(10), []);
    c := ReachNext(c, Start("payer", "provider", "service", Some(first), 1));
    assert c.records[t] == NewRecord(first, 1);
    c := ReachNext(c, OpMarkPending(t, 0, "", 2));
    assert c.records[t].state == CollectPending;
  }

  /** A reachable state in which a request is queued for a stream that has just rebound. */
  lemma RequestQueuedForRebind() returns (c: Cell, d: Delivery)
    ensures Reachable(c) && c.eval.Free? && c.session.Some? && IsActive(c.session.value)
    ensures RavValue(c.session.value) == 0 && c.session.value.baselineCost == 0 && c.session.value.totalCost == 10
    ensures c.slot == Slot(Some(d.chan), d.pending, Some(d.response)) && d.pending.Some?
    ensures d in c.sending && d.chan in c.channels && c.channels[d.chan] == []
  {
    c := RequestDispatched();
    c := ReachNext(c, Unbind(0));
    c := ReachNext(c, Bind);
    d := Delivery(2, c.slot.queued.value, c.slot.pending);
  }

  /** That window is real: the escrow runs out, and the rebind's delivery lands between the
      evaluation's clear and its stop. */
  lemma ClearedRequestCanComeBack() returns (c: Cell, d: Delivery)
    ensures Reachable(c) && d in c.clearing
    ensures c.slot.pending.None? && DoClear(c, d).slot.pending.Some?
    ensures DoEvalDispatch(DoClear(c, d)).slot.pending.None?
  {
    c, d := RequestQueuedForRebind();
    c := ReachNext(c, Send(d));
    c := ReachNext(c, ApplyUsage(Counters(1, 1, 1), 1000, 4));
    c := ReachNext(c, EvalBegin(Some(100), 5));
    c := ReachNext(c, EvalStore);
    c := ReachNext(c, EvalClear);
  }
}
