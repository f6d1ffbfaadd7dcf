/** A request quotes its cost in 256 bits. When more than that has been metered since the baseline the
    quoted cost is clamped, and what follows depends on the voucher held. */
module ClampedRequests {
  import opened Basics
  import opened Ledger
  import opened Protocol
  import opened ProtocolSafety
  import opened ProtocolTheorems

  /** The request covers more than its wire form can say. */
  predicate Clamped(p: Pending, s: Session) {
    p.baselineCost - s.baselineCost >= U256
  }

  lemma {:induction false} FreshCollection(keys: set<Tuple>) returns (id: nat)
    ensures forall t <- keys :: t.collectionId < id
  {
    id := 0;
    if keys != {} {
      var t :| t in keys;
      var rest := FreshCollection(keys - {t});
      id := if rest > t.collectionId then rest else t.collectionId + 1;
      assert forall u <- keys :: u == t || u in keys - {t};
    }
  }

  /** The exact answer to a request, drawn on a given collection. */
  function ExactAnswer(s: Session, p: Pending, collectionId: nat): Submission
    requires p.target < U256
  {
    Submission(Some(ClaimedUsage(p.usage.counters, Some(p.usage.cost))),
               Given(SignedRav(Rav(Tuple(collectionId, s.payer, s.receiver, s.dataService), 0, p.target), 0)),
               true, true)
  }

  /** A pending request can be answered at all if and only if its target is an amount a voucher can hold. */
  lemma AnswerableIff(c: Cell, now: nat)
    requires Inv(c) && c.session.Some? && c.eval.Free? && c.slot.pending.Some?
    ensures c.slot.pending.value.target < U256 <==> exists sub :: HandleSubmission(c, sub, now).1 == Continue
  {
    var s, p := c.session.value, c.slot.pending.value;
    if p.target < U256 {
      var id := FreshCollection(c.records.Keys);
      var sub := ExactAnswer(s, p, id);
      AcceptedIffExact(c, sub, now);
      assert HandleSubmission(c, sub, now).1 == Continue;
    }
    forall sub | HandleSubmission(c, sub, now).1 == Continue ensures p.target < U256 {
      AcceptedIffExact(c, sub, now);
    }
  }

  /** A clamped request can be answered only by a session whose voucher is worth nothing yet. Its
      acceptance then loses exactly what the clamp cut off. */
  lemma ClampedAnswerableFromZero(c: Cell)
    requires Inv(c) && c.session.Some? && c.slot.pending.Some? && Clamped(c.slot.pending.value, c.session.value)
    ensures c.slot.pending.value.target < U256 <==> RavValue(c.session.value) == 0
    ensures c.slot.pending.value.target == RavValue(c.session.value) + U256 - 1
  {
  }

  /** On any other voucher it is a dead end: no submission is accepted, and while it is pending the
      unary call refuses everything too. */
  lemma ClampedBlocks(c: Cell, sub: Submission, rav: SignedRav, signatureOk: bool, authorized: bool, now: nat)
    requires Inv(c) && c.session.Some? && c.eval.Free? && c.slot.pending.Some?
    requires Clamped(c.slot.pending.value, c.session.value) && RavValue(c.session.value) > 0
    ensures HandleSubmission(c, sub, now).0 == c && HandleSubmission(c, sub, now).1 != Continue
    ensures HandleUnary(c, rav, signatureOk, authorized, now) == (c, false)
  {
    ClampedAnswerableFromZero(c);
    AcceptedIffExact(c, sub, now);
  }

  // ---- A run in which the clamp costs the provider ----

  lemma MeteredPastClamp() returns (c: Cell)
    ensures Reachable(c) && c.eval.Free? && c.threshold == 10
    ensures c.slot == Slot(Some(0), None, None)
    ensures c.session.Some? && IsActive(c.session.value) && c.session.value.rav.Some?
    ensures RavValue(c.session.value) == 0 && c.session.value.baselineCost == 0 && c.session.value.totalCost == U256
  {
    c := MeteredOnStream();
    c := ReachNext(c, ApplyUsage(Counters(1, 1, 1), U256 / 2, 3));
    c := ReachNext(c, ApplyUsage(Counters(1, 1, 1), U256 / 2 - 10, 4));
  }

  lemma ClampedPending() returns (c: Cell)
    ensures Reachable(c) && c.eval.Free? && c.session.Some? && c.slot.pending.Some?
    ensures RavValue(c.session.value) == 0 && c.session.value.baselineCost == 0
    ensures Clamped(c.slot.pending.value, c.session.value)
  {
    c := MeteredPastClamp();
    c := ReachNext(c, EvalBegin(None, 5));
    assert c.eval.Storing? && c.eval.snap.totalCost == U256;
    c := ReachNext(c, EvalStore);
    assert c.eval.Checking?;
    c := ReachNext(c, EvalCheck);
    c := ReachNext(c, EvalDispatch);
  }

  /** From a voucher of zero, metered cost of 2^256 is settled by a voucher of 2^256-1: voucher minus
      baseline falls. */
  lemma ClampLosesSurplus() returns (c: Cell, sub: Submission)
    ensures Reachable(c) && c.session.Some? && Surplus(c.session.value) == 0
    ensures var (c', reply) := HandleSubmission(c, sub, 6);
            reply == Continue && Reachable(c') && c'.session.Some? && Surplus(c'.session.value) < 0
  {
    c := ClampedPending();
    var threshold: nat, steps: seq<Step> :| c == Exec(Init(threshold), steps);
    RunKeepsInv(threshold, steps);
    ClampedAnswerableFromZero(c);
    AnswerableIff(c, 6);
    sub :| HandleSubmission(c, sub, 6).1 == Continue;
    AcceptedIffExact(c, sub, 6);
    var c' := ReachNext(c, Submit(sub, 6));
  }
}
