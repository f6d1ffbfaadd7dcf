/** The provider and an authorized consumer that answers every request as `signRAVForRequest` does,
    joined by payment streams that may break and be reopened at any point. */
module TwoParty {
  import opened Basics
  import opened Ledger
  import opened Collections
  import opened Protocol
  import opened ProtocolSafety
  import opened ProtocolTheorems

  /** The ingress control loop: the voucher it holds and the one it signed but has not seen confirmed.
      `highest` is the largest value it ever signed. */
  datatype Consumer = Consumer(rav: nat, awaiting: Option<nat>, highest: nat)

  /** `stream` is the handler's channel while its loop runs; `down` and `up` are the messages under way
      on it, and `connected` says whether the consumer still reads. */
  datatype Link = Link(
    cell: Cell,
    consumer: Consumer,
    connected: bool,
    stream: Option<Chan>,
    down: seq<Response>,
    up: seq<Submission>)

  datatype LinkStep =
    | Provider(step: Step)
    | Connect
    | Forward
    | Process(now: nat)
    | Receive(timestamp: nat, signature: nat)
    | Disconnect
    | HandlerExit

  /** Provider steps that no stream or consumer takes part in. */
  predicate Internal(step: Step) {
    && !step.Start? && !step.Submit? && !step.SubmitUnary? && !step.FundsAck?
    && !step.Bind? && !step.Unbind? && !step.Take?
  }

  predicate Terminal(m: Message) {
    m.NeedMoreFunds? || m.Stop?
  }

  /** `signRAVForRequest`: the next voucher adds the requested cost to the provider's current one. An
      amount that does not fit the voucher cannot be signed. */
  function Answer(s: Session, m: Message, timestamp: nat, signature: nat): Option<Submission>
    requires m.RavRequest?
  {
    var value := m.current.message.value + m.usage.cost;
    if value >= U256 then None
    else
      var tuple := Tuple(m.current.message.tuple.collectionId, s.payer, s.receiver, s.dataService);
      Some(Submission(Some(ClaimedUsage(m.usage.counters, Some(m.usage.cost))),
                      Given(SignedRav(Rav(tuple, timestamp, value), signature)), true, true))
  }

  function Exit(l: Link): Link {
    if l.stream.None? then l
    else l.(cell := DoUnbind(l.cell, l.stream.value), stream := None, up := [])
  }

  /** The handler sends a response on the stream, and ends after a terminal one. */
  function Emit(l: Link, r: Response): Link {
    var sent := if l.connected then l.(down := l.down + [r]) else l;
    if Terminal(r.message) then Exit(sent) else sent
  }

  function DoConnect(l: Link): Link {
    if l.connected || l.stream.Some? || l.cell.slot.events.Some? then l
    else Link(DoBind(l.cell), l.consumer.(awaiting := None), true, Some(l.cell.nextId), [], [])
  }

  function DoForward(l: Link): Link {
    if l.stream.None? || l.stream.value !in l.cell.channels || l.cell.channels[l.stream.value] == [] then l
    else Emit(l.(cell := DoTake(l.cell, l.stream.value)), l.cell.channels[l.stream.value][0])
  }

  function DoProcess(l: Link, now: nat): Link {
    if l.stream.None? || l.up == [] || !l.cell.eval.Free? then l
    else
      var (cell', reply) := HandleSubmission(l.cell, l.up[0], now);
      Emit(l.(cell := cell', up := l.up[1..]), Response(l.cell.nextId, reply))
  }

  function DoReceive(l: Link, timestamp: nat, signature: nat): Link {
    if !l.connected || l.down == [] || l.cell.session.None? then l
    else
      var m, rest := l.down[0].message, l.(down := l.down[1..]);
      match m
      case RavRequest(_, _) =>
        (match Answer(l.cell.session.value, m, timestamp, signature)
         case None => rest
         case Some(sub) =>
           var value := sub.voucher.rav.message.value;
           var consumer := l.consumer.(awaiting := Some(value),
                                       highest := if value > l.consumer.highest then value else l.consumer.highest);
           rest.(consumer := consumer, up := if l.stream.Some? then l.up + [sub] else l.up))
      case Continue =>
        if l.consumer.awaiting.None? then rest
        else rest.(consumer := l.consumer.(rav := l.consumer.awaiting.value, awaiting := None))
      case _ => DoDisconnect(rest)
  }

  function DoDisconnect(l: Link): Link {
    l.(connected := false, down := [], consumer := l.consumer.(awaiting := None))
  }

  function LinkNext(l: Link, step: LinkStep): Link {
    match step
    case Provider(s) => if Internal(s) then l.(cell := Next(l.cell, s)) else l
    case Connect => DoConnect(l)
    case Forward => DoForward(l)
    case Process(now) => DoProcess(l, now)
    case Receive(timestamp, signature) => DoReceive(l, timestamp, signature)
    case Disconnect => DoDisconnect(l)
    case HandlerExit => Exit(l)
  }

  function LinkExec(l: Link, steps: seq<LinkStep>): Link {
    if steps == [] then l else LinkNext(LinkExec(l, steps[..|steps| - 1]), steps[|steps| - 1])
  }

  /** A session that has just started, with both sides holding its initial voucher. */
  function Opened(threshold: nat, payer: Address, receiver: Address, dataService: Address, rav: SignedRav, now: nat)
    : Link
  {
    var cell := DoStart(Init(threshold), payer, receiver, dataService, Some(rav), now);
    Link(cell, Consumer(rav.message.value, None, rav.message.value), false, None, [], [])
  }

  // ---- The invariant ----

  function Requests(rs: seq<Response>): nat {
    if rs == [] then 0 else (if rs[0].message.RavRequest? then 1 else 0) + Requests(rs[1..])
  }

  function Continues(rs: seq<Response>): nat {
    if rs == [] then 0 else (if rs[0].message.Continue? then 1 else 0) + Continues(rs[1..])
  }

  /** Responses the handler has not yet put on the stream. */
  function Waiting(channels: map<Chan, seq<Response>>, stream: Option<Chan>): seq<Response> {
    if stream.Some? && stream.value in channels then channels[stream.value] else []
  }

  /** Requests and answers under way between the two ends of the current stream. */
  function InFlight(l: Link): nat {
    Requests(Waiting(l.cell.channels, l.stream)) + Requests(l.down) + |l.up|
  }

  predicate Live(c: Cell) {
    c.session.Some? && IsActive(c.session.value)
  }

  /** A request under way is the pending one, unless the session was stopped. */
  predicate Current(live: bool, pending: Option<Pending>, r: Response) {
    live && r.message.RavRequest? ==>
      && pending.Some?
      && pending.value.id == r.id
      && r.message.current.message.value == pending.value.currentValue
      && r.message.usage == pending.value.usage
  }

  predicate AllCurrent(live: bool, pending: Option<Pending>, rs: seq<Response>) {
    forall r <- rs :: Current(live, pending, r)
  }

  /** Nobody is asked for more than the initial voucher plus what has been metered. */
  predicate Metered(m: Message, limit: nat) {
    m.RavRequest? ==> m.current.message.value + m.usage.cost <= limit
  }

  predicate AllMetered(rs: seq<Response>, limit: nat) {
    forall r <- rs :: Metered(r.message, limit)
  }

  predicate OnStream(stream: Option<Chan>, d: Delivery) {
    stream == Some(d.chan) && d.response.message.RavRequest?
  }

  /** What evaluations dispatch. */
  predicate Control(m: Message) {
    m.RavRequest? || m.NeedMoreFunds?
  }

  /** At most one request or answer is under way, and it belongs to the pending request. */
  predicate StreamInv(l: Link) {
    && l.cell.slot.events == l.stream
    && (l.stream.None? ==> l.up == [])
    && (!l.connected ==> l.down == [])
    && InFlight(l) <= 1
    && (forall d <- l.cell.sending :: Control(d.response.message))
    && (forall r <- Waiting(l.cell.channels, l.stream) :: Control(r.message))
    && (l.cell.slot.queued.Some? ==> Control(l.cell.slot.queued.value.message))
    && AllCurrent(Live(l.cell), l.cell.slot.pending, Waiting(l.cell.channels, l.stream))
    && (l.stream.Some? ==> AllCurrent(Live(l.cell), l.cell.slot.pending, l.down))
    && (l.cell.slot.queued.Some? ==> Current(Live(l.cell), l.cell.slot.pending, l.cell.slot.queued.value))
  }

  /** A request still to be placed on the stream is alone; one that was placed is under way as long
      as the consumer reads and the session is live. */
  predicate DeliveryInv(l: Link) {
    && (forall d <- l.cell.sending :: OnStream(l.stream, d) ==>
          InFlight(l) == 0 && Current(Live(l.cell), l.cell.slot.pending, d.response))
    && (forall d <- l.cell.sending, e <- l.cell.sending :: OnStream(l.stream, d) && OnStream(l.stream, e) ==> d == e)
    && (l.connected && Live(l.cell) ==>
          && (forall d <- l.cell.clearing :: OnStream(l.stream, d) && l.cell.slot.queued == Some(d.response) ==>
                InFlight(l) == 1)
          && (l.stream.Some? && l.cell.slot.pending.Some? && l.cell.slot.queued.None? ==> InFlight(l) == 1))
  }

  predicate Answers(sub: Submission, p: Pending, s: Session) {
    && sub.usage.Some? && MatchesUsage(p, sub.usage.value)
    && sub.voucher.Given? && sub.signatureOk && sub.authorized
    && sub.voucher.rav.message.tuple.payer == s.payer
    && sub.voucher.rav.message.tuple.serviceProvider == s.receiver
    && sub.voucher.rav.message.tuple.dataService == s.dataService
    && sub.voucher.rav.message.value == p.target
  }

  predicate ContinueFirst(rs: seq<Response>) {
    rs != [] && (rs[0].message.Continue? || (!rs[0].message.RavRequest? && ContinueFirst(rs[1..])))
  }

  /** The consumer's unconfirmed voucher is on its way up, or its confirmation on its way down. */
  predicate ConsumerInv(l: Link) {
    && l.cell.session.Some?
    && l.consumer.rav <= RavValue(l.cell.session.value)
    && (l.up != [] && Live(l.cell) ==>
          l.cell.slot.pending.Some? && Answers(l.up[0], l.cell.slot.pending.value, l.cell.session.value))
    && (l.up != [] && l.connected ==>
          && Continues(l.down) == 0
          && l.up[0].voucher.Given? && l.consumer.awaiting == Some(l.up[0].voucher.rav.message.value as nat))
    && Continues(l.down) <= 1
    && (Continues(l.down) == 1 ==>
          ContinueFirst(l.down) && l.consumer.awaiting == Some(RavValue(l.cell.session.value)))
  }

  predicate MeteredInv(l: Link, opening: nat) {
    && l.cell.session.Some?
    && Surplus(l.cell.session.value) == opening
    && var limit := opening + l.cell.session.value.totalCost;
       && l.consumer.highest <= limit
       && (l.cell.slot.queued.Some? ==> Metered(l.cell.slot.queued.value.message, limit))
       && (forall d <- l.cell.sending :: Metered(d.response.message, limit))
       && AllMetered(Waiting(l.cell.channels, l.stream), limit)
       && AllMetered(l.down, limit)
  }

  predicate LinkInv(l: Link, opening: nat) {
    Inv(l.cell) && StreamInv(l) && DeliveryInv(l) && ConsumerInv(l) && MeteredInv(l, opening)
  }

  // ---- Counting along a stream ----

  lemma {:induction false} CountAppend(rs: seq<Response>, r: Response)
    ensures Requests(rs + [r]) == Requests(rs) + if r.message.RavRequest? then 1 else 0
    ensures Continues(rs + [r]) == Continues(rs) + if r.message.Continue? then 1 else 0
    ensures ContinueFirst(rs + [r]) <==> ContinueFirst(rs) || (r.message.Continue? && Requests(rs) == 0)
  {
    if rs != [] {
      CountAppend(rs[1..], r);
      assert (rs + [r])[1..] == rs[1..] + [r];
    }
  }

  lemma {:induction false} CountFinds(rs: seq<Response>)
    ensures Requests(rs) > 0 <==> exists r <- rs :: r.message.RavRequest?
  {
    if rs != [] {
      CountFinds(rs[1..]);
      assert rs == [rs[0]] + rs[1..];
    }
  }

  lemma {:induction false} ContinueFirstCounts(rs: seq<Response>)
    ensures ContinueFirst(rs) ==> Continues(rs) >= 1
    ensures Requests(rs) == 0 && Continues(rs) >= 1 ==> ContinueFirst(rs)
  {
    if rs != [] { ContinueFirstCounts(rs[1..]); }
  }

  /** Nothing is under way while a live session has no pending request. */
  lemma IdleStream(l: Link)
    requires StreamInv(l) && ConsumerInv(l) && Live(l.cell) && l.cell.slot.pending.None? && l.stream.Some?
    ensures InFlight(l) == 0
  {
    CountFinds(Waiting(l.cell.channels, l.stream));
    CountFinds(l.down);
  }

  // ---- Each step keeps it ----

  /** The steps that leave the transport alone: voucher and baseline stay, cost may grow, and a
      session that is still live still has the same slot. */
  predicate Frames(c: Cell, c': Cell) {
    && c.session.Some? && c'.session.Some?
    && c'.channels == c.channels && c'.sending == c.sending && c'.clearing == c.clearing
    && c'.slot.events == c.slot.events && c'.slot.queued == c.slot.queued
    && c'.session.value.rav == c.session.value.rav
    && c'.session.value.baselineCost == c.session.value.baselineCost
    && c.session.value.totalCost <= c'.session.value.totalCost
    && c'.session.value.payer == c.session.value.payer
    && c'.session.value.receiver == c.session.value.receiver
    && c'.session.value.dataService == c.session.value.dataService
    && (Live(c') ==> Live(c) && c'.slot == c.slot)
  }

  lemma EvalFrames(c: Cell, step: Step)
    requires Inv(c) && c.session.Some? && EvalStep(step) && !step.EvalDispatch?
    ensures Frames(c, Next(c, step))
  {
  }

  lemma OtherFrames(c: Cell, step: Step)
    requires c.session.Some? && Internal(step) && !EvalStep(step) && !step.Send? && !step.Clear?
    ensures Frames(c, Next(c, step))
  {
  }

  lemma InternalFrames(c: Cell, step: Step)
    requires Inv(c) && c.session.Some? && Internal(step)
    requires !step.EvalDispatch? && !step.Send? && !step.Clear?
    ensures Frames(c, Next(c, step))
  {
    if EvalStep(step) {
      EvalFrames(c, step);
    } else {
      OtherFrames(c, step);
    }
  }

  lemma FramesKeepLink(l: Link, cell': Cell, opening: nat)
    requires StreamInv(l) && DeliveryInv(l) && ConsumerInv(l) && MeteredInv(l, opening)
    requires Frames(l.cell, cell')
    ensures var l' := l.(cell := cell');
            StreamInv(l') && DeliveryInv(l') && ConsumerInv(l') && MeteredInv(l', opening)
  {
  }

  lemma DispatchKeepsStream(l: Link)
    requires Inv(l.cell) && StreamInv(l) && DeliveryInv(l) && ConsumerInv(l)
    ensures var l' := l.(cell := DoEvalDispatch(l.cell));
            StreamInv(l') && DeliveryInv(l') && ConsumerInv(l')
  {
    if l.cell.eval.Dispatching? && !Stopping(l.cell.eval) && l.stream.Some? {
      IdleStream(l);
      CountFinds(Waiting(l.cell.channels, l.stream));
      CountFinds(l.down);
    }
  }

  lemma DispatchKeepsMetered(l: Link, opening: nat)
    requires Inv(l.cell) && MeteredInv(l, opening)
    ensures MeteredInv(l.(cell := DoEvalDispatch(l.cell)), opening)
  {
  }

  lemma SendKeepsStream(l: Link, d: Delivery)
    requires Inv(l.cell) && StreamInv(l) && DeliveryInv(l)
    ensures StreamInv(l.(cell := DoSend(l.cell, d)))
  {
    if d.chan in l.cell.channels {
      CountAppend(l.cell.channels[d.chan], d.response);
    }
  }

  lemma SendKeepsDelivery(l: Link, d: Delivery)
    requires Inv(l.cell) && StreamInv(l) && DeliveryInv(l)
    ensures DeliveryInv(l.(cell := DoSend(l.cell, d)))
  {
    if d.chan in l.cell.channels {
      CountAppend(l.cell.channels[d.chan], d.response);
    }
  }

  lemma SendKeepsMetered(l: Link, d: Delivery, opening: nat)
    requires MeteredInv(l, opening) && ConsumerInv(l)
    ensures var l' := l.(cell := DoSend(l.cell, d));
            MeteredInv(l', opening) && ConsumerInv(l')
  {
  }

  lemma ClearKeepsStream(l: Link, d: Delivery, opening: nat)
    requires LinkInv(l, opening)
    ensures var l' := l.(cell := DoClear(l.cell, d));
            StreamInv(l') && DeliveryInv(l') && ConsumerInv(l') && MeteredInv(l', opening)
  {
    if d in l.cell.clearing { LateDelivery(l.cell, d); }
  }

  lemma InternalKeepsLink(l: Link, step: Step, opening: nat)
    requires LinkInv(l, opening) && Internal(step)
    requires !step.EvalDispatch? && !step.Send? && !step.Clear?
    ensures LinkInv(l.(cell := Next(l.cell, step)), opening)
  {
    StepKeepsInv(l.cell, step);
    InternalFrames(l.cell, step);
    FramesKeepLink(l, Next(l.cell, step), opening);
  }

  lemma DispatchKeepsLink(l: Link, opening: nat)
    requires LinkInv(l, opening)
    ensures LinkInv(l.(cell := DoEvalDispatch(l.cell)), opening)
  {
    DispatchKeepsInv(l.cell);
    DispatchKeepsStream(l);
    DispatchKeepsMetered(l, opening);
  }

  lemma SendKeepsLink(l: Link, d: Delivery, opening: nat)
    requires LinkInv(l, opening)
    ensures LinkInv(l.(cell := DoSend(l.cell, d)), opening)
  {
    SendKeepsInv(l.cell, d);
    SendKeepsStream(l, d);
    SendKeepsDelivery(l, d);
    SendKeepsMetered(l, d, opening);
  }

  lemma ClearKeepsLink(l: Link, d: Delivery, opening: nat)
    requires LinkInv(l, opening)
    ensures LinkInv(l.(cell := DoClear(l.cell, d)), opening)
  {
    ClearKeepsInv(l.cell, d);
    ClearKeepsStream(l, d, opening);
  }

  lemma ProviderKeepsLink(l: Link, step: Step, opening: nat)
    requires LinkInv(l, opening) && Internal(step)
    ensures LinkInv(l.(cell := Next(l.cell, step)), opening)
  {
    if step.EvalDispatch? {
      DispatchKeepsLink(l, opening);
    } else if step.Send? {
      SendKeepsLink(l, step.delivery, opening);
    } else if step.Clear? {
      ClearKeepsLink(l, step.delivery, opening);
    } else {
      InternalKeepsLink(l, step, opening);
    }
  }

  lemma ConnectKeepsStream(l: Link)
    requires Inv(l.cell) && StreamInv(l) && DeliveryInv(l)
    ensures StreamInv(DoConnect(l)) && DeliveryInv(DoConnect(l))
  {
  }

  lemma ConnectKeepsMetered(l: Link, opening: nat)
    requires ConsumerInv(l) && MeteredInv(l, opening)
    ensures ConsumerInv(DoConnect(l)) && MeteredInv(DoConnect(l), opening)
  {
  }

  lemma ConnectKeepsLink(l: Link, opening: nat)
    requires LinkInv(l, opening)
    ensures LinkInv(DoConnect(l), opening)
  {
    BindKeepsInv(l.cell);
    ConnectKeepsStream(l);
    ConnectKeepsMetered(l, opening);
  }

  lemma ExitKeepsStream(l: Link, opening: nat)
    requires StreamInv(l) && DeliveryInv(l) && ConsumerInv(l) && MeteredInv(l, opening)
    ensures var l' := Exit(l);
            StreamInv(l') && DeliveryInv(l') && ConsumerInv(l') && MeteredInv(l', opening)
  {
  }

  lemma DisconnectKeepsLink(l: Link, opening: nat)
    requires LinkInv(l, opening)
    ensures LinkInv(DoDisconnect(l), opening)
  {
  }

  /** The handler moves one response from its channel to the stream. */
  function Moved(l: Link): Link
    requires Waiting(l.cell.channels, l.stream) != []
  {
    var cell := DoTake(l.cell, l.stream.value);
    if l.connected then l.(cell := cell, down := l.down + [l.cell.channels[l.stream.value][0]]) else l.(cell := cell)
  }

  lemma MovedKeepsStream(l: Link)
    requires Inv(l.cell) && StreamInv(l) && DeliveryInv(l) && ConsumerInv(l) && Waiting(l.cell.channels, l.stream) != []
    ensures var l' := Moved(l);
            StreamInv(l') && DeliveryInv(l') && ConsumerInv(l')
  {
    var waiting := Waiting(l.cell.channels, l.stream);
    CountAppend(l.down, waiting[0]);
    assert Waiting(Moved(l).cell.channels, l.stream) == waiting[1..];
    assert forall r <- waiting[1..] :: r in waiting;
    assert waiting[0] in waiting;
  }

  lemma MovedKeepsMetered(l: Link, opening: nat)
    requires MeteredInv(l, opening) && Waiting(l.cell.channels, l.stream) != []
    ensures MeteredInv(Moved(l), opening)
  {
    var waiting := Waiting(l.cell.channels, l.stream);
    assert Waiting(Moved(l).cell.channels, l.stream) == waiting[1..];
    assert forall r <- waiting[1..] :: r in waiting;
    assert waiting[0] in waiting;
  }

  lemma MovedKeepsLink(l: Link, opening: nat)
    requires LinkInv(l, opening) && Waiting(l.cell.channels, l.stream) != []
    ensures LinkInv(Moved(l), opening)
  {
    StreamStepsKeepInv(l.cell, Take(l.stream.value));
    MovedKeepsStream(l);
    MovedKeepsMetered(l, opening);
  }

  lemma ExitKeepsCell(l: Link)
    requires Inv(l.cell)
    ensures Inv(Exit(l).cell)
  {
    if l.stream.Some? {
      assert Exit(l).cell == Next(l.cell, Unbind(l.stream.value));
      StreamStepsKeepInv(l.cell, Unbind(l.stream.value));
    }
  }

  lemma ExitKeepsLink(l: Link, opening: nat)
    requires LinkInv(l, opening)
    ensures LinkInv(Exit(l), opening)
  {
    ExitKeepsCell(l);
    ExitKeepsStream(l, opening);
  }

  lemma ForwardKeepsLink(l: Link, opening: nat)
    requires LinkInv(l, opening)
    ensures LinkInv(DoForward(l), opening)
  {
    if Waiting(l.cell.channels, l.stream) != [] {
      MovedKeepsLink(l, opening);
      ExitKeepsLink(Moved(l), opening);
      assert DoForward(l) == Moved(l) || DoForward(l) == Exit(Moved(l));
    }
  }

  /** The consumer's answer is never refused: a live session with the pending request still open
      accepts it, unless the voucher's settlement record is being collected at another value. */
  lemma AnswerAccepted(l: Link, now: nat)
    requires Inv(l.cell) && ConsumerInv(l) && Live(l.cell) && l.up != [] && l.cell.eval.Free?
    ensures Refusal(l.cell.session.value, l.cell.slot.pending, l.up[0]).None?
    ensures var (cell', reply) := HandleSubmission(l.cell, l.up[0], now);
            var rav := l.up[0].voucher.rav;
            var t := rav.message.tuple;
            && (reply == Continue || reply == Stop(CommitFailed))
            && (reply != Continue <==>
                  t in l.cell.records && l.cell.records[t].state == CollectPending &&
                    l.cell.records[t].value != rav.message.value)
            && (reply == Continue ==> cell'.session.Some? && cell'.session.value.rav == Some(rav))
  {
  }

  lemma StopOnClosedStream(l: Link, r: Response, opening: nat)
    requires LinkInv(l, opening) && l.stream.None? && r.message.Stop?
    ensures LinkInv(l.(down := if l.connected then l.down + [r] else l.down), opening)
  {
    CountAppend(l.down, r);
  }

  /** The stream after its only answer was accepted and confirmed. */
  function Accepted(l: Link, now: nat): Link
    requires l.up != []
  {
    var cell := HandleSubmission(l.cell, l.up[0], now).0;
    var confirmed := l.(cell := cell, up := l.up[1..]);
    if l.connected then confirmed.(down := l.down + [Response(l.cell.nextId, Continue)]) else confirmed
  }

  lemma AcceptedLedger(l: Link, now: nat, opening: nat)
    requires Inv(l.cell) && MeteredInv(l, opening) && l.up != [] && l.cell.session.value.totalCost < U256
    requires HandleSubmission(l.cell, l.up[0], now).1 == Continue
    ensures var c' := HandleSubmission(l.cell, l.up[0], now).0;
            && c'.session.Some? && Surplus(c'.session.value) == opening &&
               c'.session.value.totalCost == l.cell.session.value.totalCost
            && RavValue(l.cell.session.value) <= RavValue(c'.session.value)
            && l.up[0].voucher.Given? && RavValue(c'.session.value) == l.up[0].voucher.rav.message.value
            && c'.channels == l.cell.channels && c'.sending == l.cell.sending && c'.clearing == l.cell.clearing
            && c'.slot == l.cell.slot.(pending := None, queued := None)
            && Live(l.cell) && Live(c')
  {
    SubmissionAccepts(l.cell, l.up[0], now);
    AcceptMovesLedger(l.cell, l.cell.slot.pending.value, l.up[0].voucher.rav, now);
  }

  lemma AcceptedKeepsLink(l: Link, now: nat, opening: nat)
    requires LinkInv(l, opening) && l.up != [] && l.stream.Some? && l.cell.session.value.totalCost < U256
    requires HandleSubmission(l.cell, l.up[0], now).1 == Continue
    ensures StreamInv(Accepted(l, now)) && DeliveryInv(Accepted(l, now)) && ConsumerInv(Accepted(l, now))
  {
    AcceptedLedger(l, now, opening);
    CountAppend(l.down, Response(l.cell.nextId, Continue));
    CountFinds(Waiting(l.cell.channels, l.stream));
    CountFinds(l.down);
  }

  lemma ConfirmKeepsMetered(l: Link, c': Cell, r: Response, opening: nat)
    requires MeteredInv(l, opening) && r.message.Continue?
    requires c'.session.Some? && Surplus(c'.session.value) == opening &&
             c'.session.value.totalCost == l.cell.session.value.totalCost
    requires c'.channels == l.cell.channels && c'.sending == l.cell.sending && c'.slot.queued.None?
    ensures MeteredInv(l.(cell := c', up := [], down := if l.connected then l.down + [r] else l.down), opening)
  {
  }

  lemma ProcessKeepsLink(l: Link, now: nat, opening: nat)
    requires LinkInv(l, opening) && l.cell.session.value.totalCost < U256
    ensures LinkInv(DoProcess(l, now), opening)
  {
    if l.stream.Some? && l.up != [] && l.cell.eval.Free? {
      var (cell', reply) := HandleSubmission(l.cell, l.up[0], now);
      if reply == Continue {
        SubmitKeepsInv(l.cell, l.up[0], now);
        AcceptedKeepsLink(l, now, opening);
        AcceptedLedger(l, now, opening);
        ConfirmKeepsMetered(l, cell', Response(l.cell.nextId, reply), opening);
        assert l.up[1..] == [];
        assert DoProcess(l, now) == Accepted(l, now);
      } else {
        ExitKeepsLink(l, opening);
        StopOnClosedStream(Exit(l), Response(l.cell.nextId, reply), opening);
      }
    }
  }

  lemma RequestKeepsMetered(l: Link, timestamp: nat, signature: nat, opening: nat)
    requires MeteredInv(l, opening) && opening + l.cell.session.value.totalCost < U256
    requires l.connected && l.down != [] && l.down[0].message.RavRequest?
    ensures Answer(l.cell.session.value, l.down[0].message, timestamp, signature).Some?
    ensures MeteredInv(DoReceive(l, timestamp, signature), opening)
  {
    assert l.down[0] in l.down;
    assert forall r <- l.down[1..] :: r in l.down;
  }

  lemma RequestKeepsStream(l: Link, timestamp: nat, signature: nat)
    requires Inv(l.cell) && StreamInv(l) && DeliveryInv(l) && ConsumerInv(l)
    requires l.connected && l.down != [] && l.down[0].message.RavRequest?
    requires Answer(l.cell.session.value, l.down[0].message, timestamp, signature).Some?
    ensures var l' := DoReceive(l, timestamp, signature);
            StreamInv(l') && DeliveryInv(l')
  {
    assert forall r <- l.down[1..] :: r in l.down;
  }

  /** The consumer answers the pending request. */
  lemma RequestKeepsConsumer(l: Link, timestamp: nat, signature: nat)
    requires Inv(l.cell) && StreamInv(l) && ConsumerInv(l)
    requires l.connected && l.down != [] && l.down[0].message.RavRequest?
    requires Answer(l.cell.session.value, l.down[0].message, timestamp, signature).Some?
    ensures ConsumerInv(DoReceive(l, timestamp, signature))
  {
    assert l.down[0] in l.down;
    ContinueFirstCounts(l.down[1..]);
  }

  /** The consumer reads a confirmation: it now holds the voucher the provider holds. */
  lemma ContinueKeepsLink(l: Link, timestamp: nat, signature: nat, opening: nat)
    requires LinkInv(l, opening)
    requires l.connected && l.down != [] && l.down[0].message.Continue?
    ensures var l' := DoReceive(l, timestamp, signature);
            LinkInv(l', opening) && l'.consumer.rav == RavValue(l'.cell.session.value)
  {
    assert forall r <- l.down[1..] :: r in l.down;
    ContinueFirstCounts(l.down[1..]);
  }

  lemma ReceiveKeepsLink(l: Link, timestamp: nat, signature: nat, opening: nat)
    requires LinkInv(l, opening) && opening + l.cell.session.value.totalCost < U256
    ensures LinkInv(DoReceive(l, timestamp, signature), opening)
  {
    if l.connected && l.down != [] {
      match l.down[0].message
      case RavRequest(_, _) =>
        RequestKeepsMetered(l, timestamp, signature, opening);
        RequestKeepsStream(l, timestamp, signature);
        RequestKeepsConsumer(l, timestamp, signature);
      case Continue => ContinueKeepsLink(l, timestamp, signature, opening);
      case _ =>
        DisconnectKeepsLink(l, opening);
        assert DoReceive(l, timestamp, signature) == DoDisconnect(l);
    }
  }

  lemma LinkStepKeepsInv(l: Link, step: LinkStep, opening: nat)
    requires LinkInv(l, opening) && opening + l.cell.session.value.totalCost < U256
    ensures LinkInv(LinkNext(l, step), opening)
  {
    match step
    case Provider(s) => if Internal(s) { ProviderKeepsLink(l, s, opening); }
    case Connect => ConnectKeepsLink(l, opening);
    case Forward => ForwardKeepsLink(l, opening);
    case Process(now) => ProcessKeepsLink(l, now, opening);
    case Receive(timestamp, signature) => ReceiveKeepsLink(l, timestamp, signature, opening);
    case Disconnect => DisconnectKeepsLink(l, opening);
    case HandlerExit => ExitKeepsLink(l, opening);
  }

  /** What the final state of a run looks like when its metered cost fits the voucher. */
  lemma {:induction false} LinkRunKeepsInv(l: Link, steps: seq<LinkStep>, opening: nat)
    requires LinkInv(l, opening)
    requires LinkExec(l, steps).cell.session.Some? && opening + LinkExec(l, steps).cell.session.value.totalCost < U256
    ensures LinkInv(LinkExec(l, steps), opening)
  {
    if steps != [] {
      var front, last := steps[..|steps| - 1], steps[|steps| - 1];
      LinkTotals(LinkExec(l, front), last);
      LinkRunKeepsInv(l, front, opening);
      LinkStepKeepsInv(LinkExec(l, front), last, opening);
    }
  }

  lemma LinkTotals(l: Link, step: LinkStep)
    ensures var s' := LinkNext(l, step).cell.session;
            s'.Some? ==> l.cell.session.Some? && l.cell.session.value.totalCost <= s'.value.totalCost
  {
  }

  lemma OpenedKeepsLink(threshold: nat, payer: Address, receiver: Address, dataService: Address, rav: SignedRav,
                        now: nat)
    ensures LinkInv(Opened(threshold, payer, receiver, dataService, rav, now), rav.message.value)
  {
    StartKeepsInv(Init(threshold), payer, receiver, dataService, Some(rav), now);
  }

  /** What holds between the two parties, and what the consumer will do with a confirmation. */
  predicate Agreement(l: Link, opening: nat) {
    && l.cell.session.Some?
    && var s := l.cell.session.value;
       && InFlight(l) <= 1
       && (l.connected && l.stream.Some? && Live(l.cell) && l.cell.slot.pending.Some? && l.cell.slot.queued.None? ==>
             InFlight(l) == 1)
       && l.consumer.highest <= opening + s.totalCost
       && l.consumer.rav <= RavValue(s)
       && (l.up != [] && Live(l.cell) ==> Refusal(s, l.cell.slot.pending, l.up[0]).None?)
  }

  lemma LinkAgrees(l: Link, opening: nat)
    requires LinkInv(l, opening)
    ensures Agreement(l, opening)
  {
  }

  /** Reading a CONTINUE gives the consumer the provider's voucher value. */
  predicate Confirms(l: Link, now: nat) {
    l.connected && l.down != [] && l.down[0].message.Continue? && l.cell.session.Some? ==>
      DoReceive(l, now, 0).consumer.rav == RavValue(l.cell.session.value)
  }

  lemma LinkConfirms(l: Link, opening: nat, now: nat)
    requires LinkInv(l, opening)
    ensures Confirms(l, now)
  {
    if l.connected && l.down != [] && l.down[0].message.Continue? {
      ContinueKeepsLink(l, now, 0, opening);
    }
  }

  lemma RunAgrees(start: Link, steps: seq<LinkStep>, opening: nat, now: nat)
    requires LinkInv(start, opening)
    requires LinkExec(start, steps).cell.session.Some? &&
             opening + LinkExec(start, steps).cell.session.value.totalCost < U256
    ensures Agreement(LinkExec(start, steps), opening) && Confirms(LinkExec(start, steps), now)
  {
    LinkRunKeepsInv(start, steps, opening);
    LinkAgrees(LinkExec(start, steps), opening);
    LinkConfirms(LinkExec(start, steps), opening, now);
  }

  /** In every run of the provider with a consumer that follows the protocol, over any number of
      streams: at most one request or answer is under way, and while the consumer reads, a placed
      request really is; the consumer never signs for more than the initial voucher plus the metered
      cost, nor holds more than the provider; its answers are never refused while the session lives;
      and reading a CONTINUE leaves both sides with the same voucher value. */
  lemma TwoPartyAgreement(threshold: nat, payer: Address, receiver: Address, dataService: Address, rav: SignedRav,
                          now: nat, steps: seq<LinkStep>)
    requires var l := LinkExec(Opened(threshold, payer, receiver, dataService, rav, now), steps);
             l.cell.session.Some? && rav.message.value + l.cell.session.value.totalCost < U256
    ensures var l := LinkExec(Opened(threshold, payer, receiver, dataService, rav, now), steps);
            Agreement(l, rav.message.value) && Confirms(l, now)
  {
    OpenedKeepsLink(threshold, payer, receiver, dataService, rav, now);
    RunAgrees(Opened(threshold, payer, receiver, dataService, rav, now), steps, rav.message.value, now);
  }
}
