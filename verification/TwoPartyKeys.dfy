/** A consumer that follows the protocol keeps the collection of the voucher it was given, so a session
    with such a consumer has one settlement key. */
module TwoPartyKeys {
  import opened Basics
  import opened Ledger
  import opened Protocol
  import opened ProtocolSafety
  import opened SettlementKeys
  import opened TwoParty

  predicate AsksOn(m: Message, t: Tuple) {
    m.RavRequest? ==> m.current.message.tuple == t
  }

  predicate AllAskOn(rs: seq<Response>, t: Tuple) {
    forall r <- rs :: AsksOn(r.message, t)
  }

  predicate AllAnswerOn(subs: seq<Submission>, t: Tuple) {
    forall sub <- subs :: sub.voucher.Given? ==> sub.voucher.rav.message.tuple == t
  }

  /** The provider's side: one key, and nothing asked on another. */
  predicate CellOnKey(c: Cell, stream: Option<Chan>, t: Tuple) {
    && c.session.Some? && c.records.Keys == {t}
    && c.session.value.rav.Some? && c.session.value.rav.value.message.tuple == t
    && Tuple(t.collectionId, c.session.value.payer, c.session.value.receiver, c.session.value.dataService) == t
    && (c.slot.queued.Some? ==> AsksOn(c.slot.queued.value.message, t))
    && (forall d <- c.sending :: AsksOn(d.response.message, t))
    && AllAskOn(Waiting(c.channels, stream), t)
  }

  predicate KeyInv(l: Link, t: Tuple) {
    Inv(l.cell) && CellOnKey(l.cell, l.stream, t) && AllAskOn(l.down, t) && AllAnswerOn(l.up, t)
  }

  // ---- Each step keeps it ----

  lemma MarkKeepsKey(c: Cell, stream: Option<Chan>, step: Step, t: Tuple)
    requires CellOnKey(c, stream, t) && MarkStep(step)
    ensures CellOnKey(Next(c, step), stream, t)
  {
    MarkKeepsKeys(c, step);
  }

  lemma DispatchKeepsKey(c: Cell, stream: Option<Chan>, t: Tuple)
    requires Inv(c) && CellOnKey(c, stream, t)
    ensures CellOnKey(DoEvalDispatch(c), stream, t)
  {
  }

  lemma DeliveryKeepsKey(c: Cell, stream: Option<Chan>, step: Step, t: Tuple)
    requires CellOnKey(c, stream, t) && (step.Send? || step.Clear?)
    ensures CellOnKey(Next(c, step), stream, t)
  {
  }

  lemma QuietKeepsKey(c: Cell, stream: Option<Chan>, step: Step, t: Tuple)
    requires CellOnKey(c, stream, t) && Internal(step)
    requires !MarkStep(step) && !step.EvalDispatch? && !step.Send? && !step.Clear?
    ensures CellOnKey(Next(c, step), stream, t)
  {
  }

  lemma ProviderKeepsKey(l: Link, step: Step, t: Tuple)
    requires KeyInv(l, t) && Internal(step)
    ensures KeyInv(l.(cell := Next(l.cell, step)), t)
  {
    StepKeepsInv(l.cell, step);
    if MarkStep(step) {
      MarkKeepsKey(l.cell, l.stream, step, t);
    } else if step.EvalDispatch? {
      DispatchKeepsKey(l.cell, l.stream, t);
    } else if step.Send? || step.Clear? {
      DeliveryKeepsKey(l.cell, l.stream, step, t);
    } else {
      QuietKeepsKey(l.cell, l.stream, step, t);
    }
  }

  lemma ConnectKeepsKey(l: Link, t: Tuple)
    requires KeyInv(l, t)
    ensures KeyInv(DoConnect(l), t)
  {
    BindKeepsInv(l.cell);
  }

  lemma ExitKeepsKey(l: Link, t: Tuple)
    requires KeyInv(l, t)
    ensures KeyInv(Exit(l), t)
  {
    ExitKeepsCell(l);
  }

  lemma EmitKeepsKey(l: Link, r: Response, t: Tuple)
    requires KeyInv(l, t) && AsksOn(r.message, t)
    ensures KeyInv(Emit(l, r), t)
  {
    var sent := if l.connected then l.(down := l.down + [r]) else l;
    assert KeyInv(sent, t);
    ExitKeepsKey(sent, t);
  }

  lemma ForwardKeepsKey(l: Link, t: Tuple)
    requires KeyInv(l, t)
    ensures KeyInv(DoForward(l), t)
  {
    var waiting := Waiting(l.cell.channels, l.stream);
    if waiting != [] {
      var taken := l.(cell := DoTake(l.cell, l.stream.value));
      StreamStepsKeepInv(l.cell, Take(l.stream.value));
      assert Waiting(taken.cell.channels, l.stream) == waiting[1..];
      assert waiting[0] in waiting && forall r <- waiting[1..] :: r in waiting;
      EmitKeepsKey(taken, waiting[0], t);
    }
  }

  lemma SubmitKeepsKey(c: Cell, stream: Option<Chan>, sub: Submission, now: nat, t: Tuple)
    requires Inv(c) && CellOnKey(c, stream, t) && (sub.voucher.Given? ==> sub.voucher.rav.message.tuple == t)
    ensures CellOnKey(HandleSubmission(c, sub, now).0, stream, t)
  {
    SubmissionAccepts(c, sub, now);
    SubmitKeys(c, sub, now);
  }

  lemma ProcessKeepsKey(l: Link, now: nat, t: Tuple)
    requires KeyInv(l, t)
    ensures KeyInv(DoProcess(l, now), t)
  {
    if l.stream.Some? && l.up != [] && l.cell.eval.Free? {
      var (cell', reply) := HandleSubmission(l.cell, l.up[0], now);
      assert l.up[0] in l.up && forall sub <- l.up[1..] :: sub in l.up;
      SubmitKeepsInv(l.cell, l.up[0], now);
      SubmitKeepsKey(l.cell, l.stream, l.up[0], now, t);
      EmitKeepsKey(l.(cell := cell', up := l.up[1..]), Response(l.cell.nextId, reply), t);
    }
  }

  lemma ReceiveKeepsKey(l: Link, timestamp: nat, signature: nat, t: Tuple)
    requires KeyInv(l, t)
    ensures KeyInv(DoReceive(l, timestamp, signature), t)
  {
    if l.down != [] {
      assert l.down[0] in l.down && forall r <- l.down[1..] :: r in l.down;
    }
  }

  lemma LinkStepKeepsKey(l: Link, step: LinkStep, t: Tuple)
    requires KeyInv(l, t)
    ensures KeyInv(LinkNext(l, step), t)
  {
    match step
    case Provider(s) => if Internal(s) { ProviderKeepsKey(l, s, t); }
    case Connect => ConnectKeepsKey(l, t);
    case Forward => ForwardKeepsKey(l, t);
    case Process(now) => ProcessKeepsKey(l, now, t);
    case Receive(timestamp, signature) => ReceiveKeepsKey(l, timestamp, signature, t);
    case Disconnect =>
    case HandlerExit => ExitKeepsKey(l, t);
  }

  lemma {:induction false} LinkRunKeepsKey(l: Link, steps: seq<LinkStep>, t: Tuple)
    requires KeyInv(l, t)
    ensures KeyInv(LinkExec(l, steps), t)
  {
    if steps != [] {
      LinkRunKeepsKey(l, steps[..|steps| - 1], t);
      LinkStepKeepsKey(LinkExec(l, steps[..|steps| - 1]), steps[|steps| - 1], t);
    }
  }

  /** Opened with a voucher on its own payer, provider and data service, as a start demands, a session
      whose consumer follows the protocol has exactly one settlement key in every run, and everything
      it is asked and answers is on it. */
  lemma FollowerHasOneKey(threshold: nat, rav: SignedRav, now: nat, steps: seq<LinkStep>)
    ensures var t := rav.message.tuple;
            var l := LinkExec(Opened(threshold, t.payer, t.serviceProvider, t.dataService, rav, now), steps);
            && l.cell.records.Keys == {t} && VoucherTuples(l.cell.session) == {t}
            && AllAskOn(l.down, t) && AllAnswerOn(l.up, t)
  {
    var t := rav.message.tuple;
    var start := Opened(threshold, t.payer, t.serviceProvider, t.dataService, rav, now);
    StartKeepsInv(Init(threshold), t.payer, t.serviceProvider, t.dataService, Some(rav), now);
    assert KeyInv(start, t);
    LinkRunKeepsKey(start, steps, t);
  }
}
