/** Under how many settlement keys a session's vouchers are filed, and what a voucher is worth against
    what was metered. The gateway checks payer, provider and, on the stream, data service; nothing
    checks the collection id, so a session may file its vouchers under several keys. */
module SettlementKeys {
  import opened Basics
  import opened Ledger
  import opened Collections
  import opened Protocol
  import opened ProtocolSafety
  import opened ProtocolTheorems

  function VoucherTuples(s: Option<Session>): set<Tuple> {
    if s.Some? && s.value.rav.Some? then {s.value.rav.value.message.tuple} else {}
  }

  /** Every voucher the session ever held in the run is drawn on `t`. */
  predicate AllVouchersOn(c: Cell, steps: seq<Step>, t: Tuple) {
    && VoucherTuples(Exec(c, steps).session) <= {t}
    && (steps != [] ==> AllVouchersOn(c, steps[..|steps| - 1], t))
  }

  /** A record is filed exactly when a voucher on its key becomes the session's. */
  lemma KeysStep(c: Cell, step: Step)
    requires Inv(c)
    ensures Next(c, step).records.Keys == c.records.Keys + VoucherTuples(Next(c, step).session)
  {
    if step.Start? {
      StartKeys(c, step);
    } else if step.Submit? {
      SubmitKeys(c, step.submission, step.now);
    } else if step.SubmitUnary? {
      UnaryKeys(c, step.rav, step.signatureOk, step.authorized, step.now);
    } else if MarkStep(step) {
      MarkKeepsKeys(c, step);
      VoucherHasRecord(c);
    } else {
      OtherKeepsRecords(c, step);
      OtherKeepsVoucher(c, step);
      VoucherHasRecord(c);
    }
  }

  lemma VoucherHasRecord(c: Cell)
    requires Inv(c)
    ensures VoucherTuples(c.session) <= c.records.Keys
  {
  }

  lemma StartKeys(c: Cell, step: Step)
    requires Inv(c) && step.Start?
    ensures Next(c, step).records.Keys == c.records.Keys + VoucherTuples(Next(c, step).session)
  {
    VoucherHasRecord(c);
  }

  lemma SubmitKeys(c: Cell, sub: Submission, now: nat)
    requires Inv(c)
    ensures var c' := HandleSubmission(c, sub, now).0;
            c'.records.Keys == c.records.Keys + VoucherTuples(c'.session)
  {
    VoucherHasRecord(c);
    SubmissionAccepts(c, sub, now);
  }

  lemma UnaryKeys(c: Cell, rav: SignedRav, signatureOk: bool, authorized: bool, now: nat)
    requires Inv(c)
    ensures var c' := HandleUnary(c, rav, signatureOk, authorized, now).0;
            c'.records.Keys == c.records.Keys + VoucherTuples(c'.session)
  {
    VoucherHasRecord(c);
  }

  lemma MarkKeepsKeys(c: Cell, step: Step)
    requires MarkStep(step)
    ensures Next(c, step).records.Keys == c.records.Keys && Next(c, step).session == c.session
  {
  }

  lemma OtherKeepsVoucher(c: Cell, step: Step)
    requires !step.Start? && !step.Submit? && !step.SubmitUnary?
    ensures VoucherTuples(Next(c, step).session) == VoucherTuples(c.session)
  {
  }

  /** A session's records have one key if and only if every voucher it accepted names that tuple. */
  lemma {:induction false} OneKeyIff(threshold: nat, steps: seq<Step>, t: Tuple)
    ensures Exec(Init(threshold), steps).records.Keys <= {t} <==> AllVouchersOn(Init(threshold), steps, t)
  {
    if steps != [] {
      var front, last := steps[..|steps| - 1], steps[|steps| - 1];
      OneKeyIff(threshold, front, t);
      RunKeepsInv(threshold, front);
      KeysStep(Exec(Init(threshold), front), last);
    }
  }

  /** Without that check on the collection id, one session's voucher can be collected more than once: a
      voucher of 5 with no metered cost and two collectible records of 5 on different keys. */
  lemma TwoKeysOneVoucher(a: SignedRav, b: SignedRav) returns (c: Cell, steps: seq<Step>)
    requires a.message.value == b.message.value == 5 && a.message.tuple != b.message.tuple
    requires a.message.tuple.payer == b.message.tuple.payer
    requires a.message.tuple.serviceProvider == b.message.tuple.serviceProvider
    ensures steps == [Start(a.message.tuple.payer, a.message.tuple.serviceProvider, a.message.tuple.dataService,
                            Some(a), 1),
                      SubmitUnary(b, true, true, 2)]
    ensures c == Exec(Init(1), steps) && c.session.Some? && c.session.value.totalCost == 0 &&
            RavValue(c.session.value) == 5
    ensures c.records == map[a.message.tuple := NewRecord(a, 1), b.message.tuple := NewRecord(b, 2)]
  {
    var t := a.message.tuple;
    var first := [Start(t.payer, t.serviceProvider, t.dataService, Some(a), 1)];
    steps := first + [SubmitUnary(b, true, true, 2)];
    assert first[..0] == [] && steps[..1] == first;
    var started := DoStart(Init(1), t.payer, t.serviceProvider, t.dataService, Some(a), 1);
    assert Exec(Init(1), first) == started;
    assert started.records == map[t := NewRecord(a, 1)];
    c := HandleUnary(started, b, true, true, 2).0;
    assert c == Exec(Init(1), steps);
  }

  /** The value of the voucher the session was created with. */
  function Opening(c: Cell, steps: seq<Step>): nat {
    if steps == [] then 0
    else
      var front, last := Exec(c, steps[..|steps| - 1]), Exec(c, steps);
      if front.session.None? && last.session.Some? then RavValue(last.session.value)
      else Opening(c, steps[..|steps| - 1])
  }

  lemma StartOpens(c: Cell, step: Step)
    requires Inv(c) && c.session.None? && Next(c, step).session.Some?
    ensures Surplus(Next(c, step).session.value) == RavValue(Next(c, step).session.value)
    ensures !step.SubmitUnary?
  {
  }

  /** Without the unary call the voucher is what the session opened with plus the baselined cost, so at
      most the opening value plus everything metered. */
  lemma {:induction false} VoucherWithinMetered(threshold: nat, steps: seq<Step>)
    requires NoUnary(steps)
    requires var s := Exec(Init(threshold), steps).session;
             s.Some? && s.value.totalCost < U256
    ensures var s := Exec(Init(threshold), steps).session.value;
            var opening := Opening(Init(threshold), steps);
            Surplus(s) == opening && RavValue(s) <= opening + s.totalCost
  {
    var front, last := steps[..|steps| - 1], steps[|steps| - 1];
    var c := Exec(Init(threshold), front);
    RunKeepsInv(threshold, front);
    RunKeepsInv(threshold, steps);
    if c.session.None? {
      StartOpens(c, last);
    } else {
      LedgerStep(c, last);
      VoucherWithinMetered(threshold, front);
      assert last in steps;
    }
  }
}
