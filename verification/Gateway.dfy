/** The payment gateway as imperative code over the repository and the runtime manager. Each method,
    run without interruption, is shown to be a run of the protocol's critical sections. */
module Gateway {
  import opened Basics
  import opened Ledger
  import opened Collections
  import opened Repository
  import opened Protocol

  // ---- Uninterrupted operations as runs ----

  /** Deliver what is queued for the bound stream. */
  function Flushed(c: Cell): Cell {
    if c.slot.events.Some? && c.slot.queued.Some? then
      var d := Delivery(c.slot.events.value, c.slot.queued.value, c.slot.pending);
      DoClear(DoSend(c, d), d)
    else c
  }

  /** A whole evaluation; the sections that do not apply change nothing. */
  function Evaluated(c: Cell, balance: Option<nat>, now: nat): Cell {
    Flushed(DoEvalDispatch(DoEvalCheck(DoEvalClear(DoEvalStore(DoEvalBegin(c, balance, now))))))
  }

  function Bound(c: Cell, balance: Option<nat>, now: nat): Cell {
    if c.slot.events.Some? then c else Evaluated(Flushed(DoBind(c)), balance, now)
  }

  function Submitted(c: Cell, sub: Submission, balance: Option<nat>, now: nat): (Cell, Message) {
    var (c', reply) := HandleSubmission(c, sub, now);
    if reply == Continue then (Evaluated(c', balance, now), reply) else (c', reply)
  }

  function Metered(c: Cell, delta: Counters, cost: nat, balance: Option<nat>, now: nat): Cell {
    if c.session.None? then c else Evaluated(DoUsage(c, delta, cost, now), balance, now)
  }

  ghost predicate Runs(c: Cell, c': Cell) {
    exists steps: seq<Step> :: Exec(c, steps) == c'
  }

  lemma RunsStep(c: Cell, c': Cell, step: Step)
    requires Runs(c, c')
    ensures Runs(c, Next(c', step))
  {
    var steps: seq<Step> :| Exec(c, steps) == c';
    assert (steps + [step])[..|steps|] == steps;
    assert Exec(c, steps + [step]) == Next(c', step);
  }

  lemma FlushedRuns(c: Cell, c': Cell)
    requires Runs(c, c')
    ensures Runs(c, Flushed(c'))
  {
    if c'.slot.events.Some? && c'.slot.queued.Some? {
      var d := Delivery(c'.slot.events.value, c'.slot.queued.value, c'.slot.pending);
      RunsStep(c, c', Send(d));
      RunsStep(c, DoSend(c', d), Clear(d));
    }
  }

  lemma EvaluatedRuns(c: Cell, c0: Cell, balance: Option<nat>, now: nat)
    requires Runs(c, c0)
    ensures Runs(c, Evaluated(c0, balance, now))
  {
    var c1 := DoEvalBegin(c0, balance, now);
    RunsStep(c, c0, EvalBegin(balance, now));
    var c2 := DoEvalStore(c1);
    RunsStep(c, c1, EvalStore);
    var c3 := DoEvalClear(c2);
    RunsStep(c, c2, EvalClear);
    var c4 := DoEvalCheck(c3);
    RunsStep(c, c3, EvalCheck);
    RunsStep(c, c4, EvalDispatch);
    FlushedRuns(c, DoEvalDispatch(c4));
  }

  // The composite operations are runs of the protocol, so every theorem about runs covers them.

  lemma BindIsRun(c: Cell, balance: Option<nat>, now: nat)
    ensures Runs(c, Bound(c, balance, now))
  {
    assert Exec(c, []) == c;
    RunsStep(c, c, Bind);
    FlushedRuns(c, DoBind(c));
    EvaluatedRuns(c, Flushed(DoBind(c)), balance, now);
  }

  lemma UndoneBindIsRun(c: Cell)
    ensures Runs(c, DoUnbind(Flushed(DoBind(c)), c.nextId))
  {
    assert Exec(c, []) == c;
    RunsStep(c, c, Bind);
    FlushedRuns(c, DoBind(c));
    RunsStep(c, Flushed(DoBind(c)), Unbind(c.nextId));
  }

  lemma SubmissionIsRun(c: Cell, sub: Submission, balance: Option<nat>, now: nat)
    ensures Runs(c, Submitted(c, sub, balance, now).0)
  {
    assert Exec(c, []) == c;
    RunsStep(c, c, Submit(sub, now));
    EvaluatedRuns(c, HandleSubmission(c, sub, now).0, balance, now);
  }

  lemma ReportIsRun(c: Cell, delta: Counters, cost: nat, balance: Option<nat>, now: nat)
    ensures Runs(c, Metered(c, delta, cost, balance, now))
  {
    assert Exec(c, []) == c;
    RunsStep(c, c, ApplyUsage(delta, cost, now));
    EvaluatedRuns(c, DoUsage(c, delta, cost, now), balance, now);
  }

  /** Nothing is delivered when no delivery is under way. */
  lemma FlushedQuiet(c: Cell)
    requires c.sending == {} && c.clearing == {}
    ensures Flushed(c) == c
  {
  }

  /** An evaluation that finds nothing to do. */
  lemma EvaluatedIdle(c: Cell, balance: Option<nat>, now: nat)
    requires c.sending == {} && c.clearing == {} && c.eval.Free?
    ensures (c.session.None? || !IsActive(c.session.value)) ==> Evaluated(c, balance, now) == c
    ensures var c2 := DoEvalStore(DoEvalBegin(c, balance, now));
            c2.eval.Free? ==> Evaluated(c, balance, now) == c2
  {
    FlushedQuiet(c);
    FlushedQuiet(DoEvalStore(DoEvalBegin(c, balance, now)));
  }

  /** An evaluation leaves a request outstanding exactly when the escrow, if known, covers the cost and
      either one was outstanding already or one is due: a stream is bound, a voucher is held and the
      cost since the baseline has reached the threshold. One that was outstanding stays as it was; a new
      one is for all of that cost. The session stays active exactly when it is covered. */
  lemma RequestIffDue(c: Cell, balance: Option<nat>, now: nat)
    requires c.sending == {} && c.clearing == {} && c.eval.Free? && c.session.Some? && IsActive(c.session.value)
    ensures var c', s := Evaluated(c, balance, now), c.session.value;
            var cost := UsageSinceBaseline(s).cost;
            var covered := balance.Some? ==> RavValue(s) + cost <= balance.value;
            var due := c.slot.events.Some? && s.rav.Some? && cost >= c.threshold;
            && (c'.slot.pending.Some? <==> covered && (c.slot.pending.Some? || due))
            && (covered && c.slot.pending.Some? ==> c'.slot == c.slot)
            && (covered && c.slot.pending.None? && due ==>
                  && c'.slot.pending.value.target == RavValue(s) + Basics.Wire(cost)
                  && c'.slot.pending.value.baselineCost == s.totalCost && c'.slot.pending.value.baseline == s.used)
            && c'.session.Some? && (IsActive(c'.session.value) <==> covered)
  {
    EvaluatedIdle(c, balance, now);
    var stored := DoEvalStore(DoEvalBegin(c, balance, now));
    if !stored.eval.Free? {
      var ready := DoEvalCheck(DoEvalClear(stored));
      if ready.eval.Dispatching? {
        DispatchFlushed(ready);
      } else {
        FlushedQuiet(ready);
      }
    }
  }

  /** With no other delivery under way, a bind delivers what was queued when the new channel takes it. */
  lemma BindFlushed(c: Cell)
    requires c.slot.events.None? && c.sending == {} && c.clearing == {}
    ensures var slot := BindSlot(c.slot, c.nextId);
            var c' := Flushed(DoBind(c));
            && c'.threshold == c.threshold && c'.session == c.session && c'.records == c.records
            && c'.sending == {} && c'.clearing == {} && c'.eval == c.eval && c'.nextId == c.nextId + 1
            && c'.slot == slot.(queued := None)
            && c'.channels == c.channels[c.nextId := if slot.queued.Some? then [slot.queued.value] else []]
  {
    var slot := BindSlot(c.slot, c.nextId);
    if slot.queued.Some? {
      var d := Delivery(c.nextId, slot.queued.value, slot.pending);
      var sent := DoSend(DoBind(c), d);
      assert [] + [slot.queued.value] == [slot.queued.value];
      assert sent.channels == c.channels[c.nextId := [slot.queued.value]];
      assert sent.clearing - {d} == {};
    }
  }

  /** With no other delivery under way, a dispatch ends delivered or, when the channel is full or no
      stream is bound, queued. */
  lemma DispatchFlushed(c: Cell)
    requires c.eval.Dispatching? && c.sending == {} && c.clearing == {}
    ensures var slot := c.slot;
            var response := Response(c.nextId, ControlMessage(c.eval.snap, c.eval.assessment));
            var pending := if response.message.RavRequest? then Some(NewPending(c.nextId, c.eval.snap)) else None;
            var stored := slot.(queued := Some(response), pending := pending);
            var room := slot.events.Some? && slot.events.value in c.channels &&
                        |c.channels[slot.events.value]| < CHANNEL_CAPACITY;
            var c' := Flushed(DoEvalDispatch(c));
            && c'.threshold == c.threshold && c'.session == c.session && c'.records == c.records
            && c'.sending == {} && c'.clearing == {} && c'.eval.Free? && c'.nextId == c.nextId + 1
            && c'.slot == (if room then stored.(queued := None) else stored)
            && c'.channels == (if room
                               then c.channels[slot.events.value := c.channels[slot.events.value] + [response]]
                               else c.channels)
  {
  }

  // ---- The runtime manager ----

  /** The channels handed out for one session, and the next unused identity. */
  datatype Wire = Wire(channels: map<Chan, seq<Response>>, nextId: nat)

  function SlotIn(slots: map<SessionId, Slot>, id: SessionId): Slot {
    if id in slots then slots[id] else IDLE
  }

  function WireIn(wires: map<SessionId, Wire>, id: SessionId): Wire {
    if id in wires then wires[id] else Wire(map[], 0)
  }

  /** Nothing about sessions other than `id` changed. */
  ghost predicate OthersKept(slots: map<SessionId, Slot>, slots': map<SessionId, Slot>,
                             wires: map<SessionId, Wire>, wires': map<SessionId, Wire>, id: SessionId) {
    forall other :: other != id ==>
      SlotIn(slots', other) == SlotIn(slots, other) && WireIn(wires', other) == WireIn(wires, other)
  }

  class RuntimeManager {
    var sessions: map<SessionId, Slot>
    var wires: map<SessionId, Wire>

    constructor ()
      ensures sessions == map[] && wires == map[]
    {
      sessions, wires := map[], map[];
    }

    function SlotOf(id: SessionId): Slot
      reads this
    {
      SlotIn(sessions, id)
    }

    function WireOf(id: SessionId): Wire
      reads this
    {
      WireIn(wires, id)
    }

    /** `bindSession` up to the release of the mutex, with the channel it binds. */
    method OpenStream(id: SessionId) returns (bound: bool, queued: Option<Response>, pending: Option<Pending>)
      modifies this
      ensures bound == old(SlotOf(id)).events.None?
      ensures !bound ==> sessions == old(sessions) && wires == old(wires)
      ensures SlotOf(id) == BindSlot(old(SlotOf(id)), old(WireOf(id)).nextId)
      ensures queued == SlotOf(id).queued && pending == SlotOf(id).pending
      ensures var wire := old(WireOf(id));
              WireOf(id) == if bound then Wire(wire.channels[wire.nextId := []], wire.nextId + 1) else wire
      ensures OthersKept(old(sessions), sessions, old(wires), wires, id)
    {
      var current := SlotOf(id);
      if current.events.Some? {
        return false, current.queued, current.pending;
      }
      var wire := WireOf(id);
      if current.pending.Some? && current.queued.None? {
        current := current.(pending := None);
      }
      current := current.(events := Some(wire.nextId));
      sessions := sessions[id := current];
      wires := wires[id := Wire(wire.channels[wire.nextId := []], wire.nextId + 1)];
      bound, queued, pending := true, current.queued, current.pending;
    }

    /** The non-blocking send of `tryDeliverQueuedResponse` and `dispatch`, followed by
        `clearQueuedResponse` when the channel took the response. */
    method TryDeliver(id: SessionId, d: Delivery) returns (placed: bool)
      modifies this
      ensures var wire := old(WireOf(id));
              && placed == (d.chan in wire.channels && |wire.channels[d.chan]| < CHANNEL_CAPACITY)
              && WireOf(id) == (if placed
                                then wire.(channels := wire.channels[d.chan := wire.channels[d.chan] + [d.response]])
                                else wire)
              && SlotOf(id) == (if placed then ClearDelivered(old(SlotOf(id)), d) else old(SlotOf(id)))
      ensures OthersKept(old(sessions), sessions, old(wires), wires, id)
    {
      var wire := WireOf(id);
      if d.chan !in wire.channels || |wire.channels[d.chan]| >= CHANNEL_CAPACITY {
        return false;
      }
      wires := wires[id := wire.(channels := wire.channels[d.chan := wire.channels[d.chan] + [d.response]])];
      if id in sessions && sessions[id].events == Some(d.chan) && sessions[id].queued == Some(d.response) {
        sessions := sessions[id := sessions[id].(queued := None, pending := d.pending)];
      }
      placed := true;
    }

    method Dispatch(id: SessionId, response: Response, pending: Option<Pending>)
      requires response.id == WireOf(id).nextId
      modifies this
      ensures var slot, wire := old(SlotOf(id)), old(WireOf(id));
              var stored := slot.(queued := Some(response), pending := pending);
              var numbered := wire.(nextId := wire.nextId + 1);
              var chan := if slot.events.Some? then slot.events.value else 0;
              var room := slot.events.Some? && chan in wire.channels && |wire.channels[chan]| < CHANNEL_CAPACITY;
              && WireOf(id) == (if room
                                then numbered.(channels := wire.channels[chan := wire.channels[chan] + [response]])
                                else numbered)
              && SlotOf(id) == (if room then stored.(queued := None) else stored)
      ensures OthersKept(old(sessions), sessions, old(wires), wires, id)
    {
      var slot := SlotOf(id);
      sessions := sessions[id := slot.(queued := Some(response), pending := pending)];
      wires := wires[id := WireOf(id).(nextId := WireOf(id).nextId + 1)];
      if slot.events.Some? {
        var placed := TryDeliver(id, Delivery(slot.events.value, response, pending));
      }
    }

    method Unbind(id: SessionId, chan: Chan)
      modifies this`sessions
      ensures var slot := old(SlotOf(id));
              SlotOf(id) == if slot.events == Some(chan) then slot.(events := None) else slot
      ensures OthersKept(old(sessions), sessions, old(wires), wires, id)
    {
      if id !in sessions || sessions[id].events != Some(chan) {
        return;
      }
      var slot := sessions[id].(events := None);
      if slot.pending.None? && slot.queued.None? {
        sessions := sessions - {id};
      } else {
        sessions := sessions[id := slot];
      }
    }

    method ClearPending(id: SessionId)
      modifies this`sessions
      ensures SlotOf(id) == old(SlotOf(id)).(pending := None)
      ensures OthersKept(old(sessions), sessions, old(wires), wires, id)
    {
      if id in sessions {
        sessions := sessions[id := sessions[id].(pending := None)];
      }
    }

    method ClearQueuedControl(id: SessionId)
      modifies this`sessions
      ensures SlotOf(id) == old(SlotOf(id)).(pending := None, queued := None)
      ensures OthersKept(old(sessions), sessions, old(wires), wires, id)
    {
      if id !in sessions {
        return;
      }
      var slot := sessions[id].(pending := None, queued := None);
      if slot.events.None? {
        sessions := sessions - {id};
      } else {
        sessions := sessions[id := slot];
      }
    }

    /** The submission handler's direct writes once an answer is committed. */
    method ClearAnswered(id: SessionId)
      modifies this`sessions
      ensures SlotOf(id) == old(SlotOf(id)).(pending := None, queued := None)
      ensures OthersKept(old(sessions), sessions, old(wires), wires, id)
    {
      if id in sessions {
        sessions := sessions[id := sessions[id].(pending := None, queued := None)];
      }
    }

    method Receive(id: SessionId, chan: Chan) returns (response: Option<Response>)
      modifies this`wires
      ensures var wire := old(WireOf(id));
              if chan in wire.channels && wire.channels[chan] != []
              then && response == Some(wire.channels[chan][0])
                   && WireOf(id) == wire.(channels := wire.channels[chan := wire.channels[chan][1..]])
              else response == None && WireOf(id) == wire
      ensures OthersKept(old(sessions), sessions, old(wires), wires, id)
    {
      var wire := WireOf(id);
      response := None;
      if chan in wire.channels && wire.channels[chan] != [] {
        response := Some(wire.channels[chan][0]);
        wires := wires[id := wire.(channels := wire.channels[chan := wire.channels[chan][1..]])];
      }
    }
  }

  // ---- The gateway ----

  /** The concrete state of repository and runtime as a value. */
  datatype View = View(
    sessions: map<SessionId, Session>,
    records: Records,
    slots: map<SessionId, Slot>,
    wires: map<SessionId, Wire>)

  /** What the concrete state holds for one session. */
  datatype Slice = Slice(session: Option<Session>, records: map<Tuple, Record>, slot: Slot, wire: Wire)

  function SliceAt(v: View, id: SessionId): Slice {
    Slice(if id in v.sessions then Some(v.sessions[id]) else None,
          RecordsOf(v.records, id), SlotIn(v.slots, id), WireIn(v.wires, id))
  }

  /** The slice is the quiescent protocol state `c`. */
  ghost predicate Mirrors(x: Slice, c: Cell, threshold: nat) {
    && c.threshold == threshold
    && c.session == x.session && c.records == x.records && c.slot == x.slot
    && c.channels == x.wire.channels && c.nextId == x.wire.nextId
    && c.sending == {} && c.clearing == {} && c.eval.Free?
  }

  ghost predicate Consistent(v: View, cells: map<SessionId, Cell>, threshold: nat) {
    forall id :: Mirrors(SliceAt(v, id), CellIn(cells, threshold, id), threshold)
  }

  /** Two states differ at most in what belongs to session `id`. */
  ghost predicate OnlyTouches(v: View, v': View, id: SessionId) {
    forall other :: other != id ==> SliceAt(v', other) == SliceAt(v, other)
  }

  lemma UpdateTwice<K, V>(m: map<K, V>, k: K, v: V, w: V)
    ensures m[k := v][k := w] == m[k := w]
  {
  }

  lemma Advance(v: View, v': View, cells: map<SessionId, Cell>, threshold: nat, id: SessionId, c: Cell)
    requires Consistent(v, cells, threshold) && OnlyTouches(v, v', id)
    requires Mirrors(SliceAt(v', id), c, threshold)
    ensures Consistent(v', cells[id := c], threshold)
  {
    assert forall other :: CellIn(cells[id := c], threshold, other) == if other == id then c
                                                                       else CellIn(cells, threshold, other);
    assert forall other :: other != id ==> SliceAt(v', other) == SliceAt(v, other);
  }

  /** The parties named in a start request, as far as they are given and well formed. */
  datatype Account = Account(payer: Option<Address>, receiver: Option<Address>, dataService: Option<Address>)

  datatype StartRefusal =
    | ReceiverIsNotUs | StartSignature | StartNotAuthorized | StartPayer | StartProvider | StartDataService

  /** `Unconfigured` is an error for the caller although the session was created. */
  datatype StartReply = BadStart | StartRefused(reason: StartRefusal) | NotCreated | Unconfigured | Started

  /** Complete, well formed, and for this provider. */
  predicate StartIsForUs(account: Account, initial: SubmittedRav, provider: Address) {
    && account.payer.Some? && account.dataService.Some? && account.receiver == Some(provider)
    && !initial.Malformed?
  }

  /** The initial voucher, if any, is the payer's and names the account. */
  predicate InitialFits(account: Account, initial: SubmittedRav, signatureOk: bool, authorized: bool, provider: Address)
  {
    initial.Given? ==>
      && signatureOk && authorized
      && var t := initial.rav.message.tuple;
         account.payer == Some(t.payer) && t.serviceProvider == provider && account.dataService == Some(t.dataService)
  }

  /** What each refusal says of the request. */
  predicate StartFails(reason: StartRefusal, account: Account, initial: SubmittedRav, signatureOk: bool,
                       authorized: bool, provider: Address)
  {
    match reason
    case ReceiverIsNotUs => account.receiver != Some(provider)
    case StartSignature => initial.Given? && !signatureOk
    case StartNotAuthorized => initial.Given? && !authorized
    case StartPayer => initial.Given? && account.payer != Some(initial.rav.message.tuple.payer)
    case StartProvider => initial.Given? && initial.rav.message.tuple.serviceProvider != provider
    case StartDataService => initial.Given? && account.dataService != Some(initial.rav.message.tuple.dataService)
  }

  function StartRank(reason: StartRefusal): nat {
    match reason
    case ReceiverIsNotUs => 0
    case StartSignature => 1
    case StartNotAuthorized => 2
    case StartPayer => 3
    case StartProvider => 4
    case StartDataService => 5
  }

  predicate FirstStartRefusal(reason: StartRefusal, account: Account, initial: SubmittedRav, signatureOk: bool,
                              authorized: bool, provider: Address)
  {
    && StartFails(reason, account, initial, signatureOk, authorized, provider)
    && (forall r: StartRefusal :: StartRank(r) < StartRank(reason) ==>
          !StartFails(r, account, initial, signatureOk, authorized, provider))
  }

  function InitialOf(initial: SubmittedRav): Option<SignedRav> {
    if initial.Given? then Some(initial.rav) else None
  }

  function StartedCell(c: Cell, account: Account, initial: SubmittedRav, provider: Address, now: nat): Cell
    requires StartIsForUs(account, initial, provider)
  {
    DoStart(c, account.payer.value, provider, account.dataService.value, InitialOf(initial), now)
  }

  datatype UnaryReason =
    | UnaryNotFound | UnaryInactive | UnaryPending | UnaryMissing | UnarySignature | UnaryNotAuthorized
    | UnaryPayer | UnaryProvider | UnaryBelowCurrent | UnaryUnderpays

  /** `BadRequest` is an error instead of a reply. */
  datatype UnaryReply = Accepted | Rejected(reason: UnaryReason, shouldContinue: bool) | BadRequest

  /** The session is there, active, and waits for nothing on its stream: the voucher is looked at. */
  predicate Reads(c: Cell) {
    c.session.Some? && IsActive(c.session.value) && c.slot.pending.None?
  }

  predicate TellsToStop(c: Cell, voucher: SubmittedRav, signatureOk: bool, authorized: bool) {
    || c.session.None? || !IsActive(c.session.value)
    || (Reads(c) && voucher.Given? && signatureOk &&
        (|| !authorized
         || (var m, s := voucher.rav.message, c.session.value;
             m.tuple.payer == s.payer && m.tuple.serviceProvider == s.receiver &&
             RavValue(s) <= m.value < ProjectedOutstanding(s))))
  }

  /** What each reason says of the call. */
  predicate Applies(reason: UnaryReason, c: Cell, voucher: SubmittedRav, signatureOk: bool, authorized: bool) {
    match reason
    case UnaryNotFound => c.session.None?
    case UnaryInactive => c.session.Some? && !IsActive(c.session.value)
    case UnaryPending => c.slot.pending.Some?
    case UnaryMissing => voucher.Missing?
    case UnarySignature => !signatureOk
    case UnaryNotAuthorized => !authorized
    case UnaryPayer => c.session.Some? && voucher.Given? && voucher.rav.message.tuple.payer != c.session.value.payer
    case UnaryProvider =>
      c.session.Some? && voucher.Given? && voucher.rav.message.tuple.serviceProvider != c.session.value.receiver
    case UnaryBelowCurrent =>
      c.session.Some? && voucher.Given? && voucher.rav.message.value < RavValue(c.session.value)
    case UnaryUnderpays =>
      c.session.Some? && voucher.Given? && voucher.rav.message.value < ProjectedOutstanding(c.session.value)
  }

  function Rank(reason: UnaryReason): nat {
    match reason
    case UnaryNotFound => 0
    case UnaryInactive => 1
    case UnaryPending => 2
    case UnaryMissing => 3
    case UnarySignature => 4
    case UnaryNotAuthorized => 5
    case UnaryPayer => 6
    case UnaryProvider => 7
    case UnaryBelowCurrent => 8
    case UnaryUnderpays => 9
  }

  predicate FirstReason(reason: UnaryReason, c: Cell, voucher: SubmittedRav, signatureOk: bool, authorized: bool) {
    && Applies(reason, c, voucher, signatureOk, authorized)
    && (forall r: UnaryReason :: Rank(r) < Rank(reason) ==> !Applies(r, c, voucher, signatureOk, authorized))
  }

  datatype BindReply = BindDone | AlreadyBound | BindFailed

  class PaymentGateway {
    const threshold: nat
    const serviceProvider: Address
    const endpointConfigured: bool
    const repo: InMemoryRepository
    const runtime: RuntimeManager
    /** The protocol state of every session. */
    ghost var cells: map<SessionId, Cell>

    ghost function CellAt(id: SessionId): Cell
      reads this
    {
      CellIn(cells, threshold, id)
    }

    ghost function Now(): View
      reads repo, runtime
    {
      View(repo.sessions, repo.records, runtime.sessions, runtime.wires)
    }

    ghost predicate Valid()
      reads this, repo, runtime
    {
      Consistent(Now(), cells, threshold)
    }

    constructor (threshold: nat, serviceProvider: Address, endpointConfigured: bool)
      ensures Valid() && this.threshold == threshold && cells == map[]
      ensures this.serviceProvider == serviceProvider && this.endpointConfigured == endpointConfigured
      ensures fresh(repo) && fresh(runtime)
    {
      this.threshold, this.serviceProvider, this.endpointConfigured := threshold, serviceProvider, endpointConfigured;
      repo := new InMemoryRepository();
      runtime := new RuntimeManager();
      cells := map[];
      new;
      assert forall id :: RecordsOf(repo.records, id) == map[];
    }

    /** `evaluateMeteredUsage`; `balance` is the escrow query's answer. */
    method EvaluateMeteredUsage(id: SessionId, balance: Option<nat>, now: nat)
      requires Valid()
      modifies this`cells, repo, runtime
      ensures Valid()
      ensures cells == old(cells)[id := Evaluated(old(CellAt(id)), balance, now)]
    {
      ghost var c, before := CellAt(id), Now();
      assert Mirrors(SliceAt(before, id), c, threshold);
      RunEvaluation(id, balance, now, c);
      Advance(before, Now(), cells, threshold, id, Evaluated(c, balance, now));
      cells := cells[id := Evaluated(c, balance, now)];
    }

    method RunEvaluation(id: SessionId, balance: Option<nat>, now: nat, ghost c: Cell)
      requires Mirrors(SliceAt(Now(), id), c, threshold)
      modifies repo, runtime
      ensures OnlyTouches(old(Now()), Now(), id)
      ensures Mirrors(SliceAt(Now(), id), Evaluated(c, balance, now), threshold)
    {
      EvaluatedIdle(c, balance, now);
      if id !in repo.sessions || !IsActive(repo.sessions[id]) {
        return;
      }
      ghost var c2 := DoEvalStore(DoEvalBegin(c, balance, now));
      var session, assessment := StoreAssessment(id, balance, now, c);
      if assessment.status == FundsInsufficient {
        StopSession(id, session, assessment, c2);
      } else if ShouldRequestRav(session, threshold) {
        RequestRav(id, session, assessment, c2);
      }
    }

    /** Assess the funds of an active session, end it when they do not suffice, and store the verdict. */
    method StoreAssessment(id: SessionId, balance: Option<nat>, now: nat, ghost c: Cell)
      returns (session: Session, assessment: Assessment)
      requires Mirrors(SliceAt(Now(), id), c, threshold) && id in repo.sessions && IsActive(repo.sessions[id])
      modifies repo`sessions
      ensures OnlyTouches(old(Now()), Now(), id)
      ensures var c2 := DoEvalStore(DoEvalBegin(c, balance, now));
              && Mirrors(SliceAt(Now(), id), c2.(eval := Free), threshold)
              && c2.eval == if assessment.status == FundsInsufficient then Clearing(session, assessment)
                            else if ShouldRequestRav(session, threshold) then Checking(session, assessment)
                            else Free
    {
      session := repo.sessions[id];
      assessment := AssessFunds(session, balance);
      session := session.(life := session.life.(funds := Some(assessment)));
      if assessment.status == FundsInsufficient {
        session := End(session, PaymentIssue, now);
      }
      assert DoEvalBegin(c, balance, now) == c.(eval := Storing(session, assessment));
      var found := repo.SessionUpdateRuntimeState(id, session.life, session.updatedAt);
    }

    /** The insufficient branch: forget the pending request, then queue the stop. */
    method StopSession(id: SessionId, session: Session, assessment: Assessment, ghost c: Cell)
      requires c.eval == Clearing(session, assessment) && Mirrors(SliceAt(Now(), id), c.(eval := Free), threshold)
      requires assessment.status == FundsInsufficient
      modifies runtime
      ensures OnlyTouches(old(Now()), Now(), id)
      ensures Mirrors(SliceAt(Now(), id), Flushed(DoEvalDispatch(DoEvalCheck(DoEvalClear(c)))), threshold)
    {
      runtime.ClearPending(id);
      DispatchFlushed(DoEvalClear(c));
      runtime.Dispatch(id, Response(runtime.WireOf(id).nextId, ControlMessage(session, assessment)), None);
    }

    /** The request branch: only for a bound stream with nothing pending. */
    method RequestRav(id: SessionId, session: Session, assessment: Assessment, ghost c: Cell)
      requires c.eval == Checking(session, assessment) && Mirrors(SliceAt(Now(), id), c.(eval := Free), threshold)
      requires assessment.status != FundsInsufficient && session.rav.Some?
      modifies runtime
      ensures OnlyTouches(old(Now()), Now(), id)
      ensures Mirrors(SliceAt(Now(), id), Flushed(DoEvalDispatch(DoEvalCheck(DoEvalClear(c)))), threshold)
    {
      var slot := runtime.SlotOf(id);
      if slot.events.None? || slot.pending.Some? {
        assert DoEvalCheck(DoEvalClear(c)) == c.(eval := Free);
        return;
      }
      DispatchFlushed(DoEvalCheck(c));
      var nextId := runtime.WireOf(id).nextId;
      runtime.Dispatch(id, Response(nextId, ControlMessage(session, assessment)), Some(NewPending(nextId, session)));
    }

    /** Why a complete start request is refused, if it is. */
    method JudgeStart(account: Account, initial: SubmittedRav, signatureOk: bool, authorized: bool)
      returns (refusal: Option<StartRefusal>)
      requires account.payer.Some? && account.receiver.Some? && account.dataService.Some?
      ensures refusal.None? <==>
                account.receiver.value == serviceProvider &&
                  InitialFits(account, initial, signatureOk, authorized, serviceProvider)
      ensures refusal.Some? ==>
                FirstStartRefusal(refusal.value, account, initial, signatureOk, authorized, serviceProvider)
    {
      if account.receiver.value != serviceProvider { return Some(ReceiverIsNotUs); }
      if initial.Given? {
        var tuple := initial.rav.message.tuple;
        if !signatureOk { return Some(StartSignature); }
        if !authorized { return Some(StartNotAuthorized); }
        if tuple.payer != account.payer.value { return Some(StartPayer); }
        if tuple.serviceProvider != serviceProvider { return Some(StartProvider); }
        if tuple.dataService != account.dataService.value { return Some(StartDataService); }
      }
      refusal := None;
    }

    /** `StartSession`: the session exists afterwards exactly when the request is complete, for this
        provider, and its voucher, if any, is the payer's on this account, and the id is unused. The
        caller is told so exactly if a data-plane endpoint is configured as well. */
    method StartSession(id: SessionId, account: Account, initial: SubmittedRav, signatureOk: bool, authorized: bool,
                        now: nat)
      returns (reply: StartReply)
      requires Valid()
      modifies this`cells, repo
      ensures Valid()
      ensures var made := reply.Started? || reply.Unconfigured?;
              var c := old(CellAt(id));
              && (made <==>
                    && StartIsForUs(account, initial, serviceProvider)
                    && InitialFits(account, initial, signatureOk, authorized, serviceProvider)
                    && c.session.None?
                    && (initial.Given? ==>
                          NextCollectible(Lookup(c.records, initial.rav.message.tuple), initial.rav, now).Ok?))
              && (made ==>
                    && cells == old(cells)[id := StartedCell(c, account, initial, serviceProvider, now)]
                    && CellAt(id).session.Some?)
              && (!made ==> cells == old(cells) && Now() == old(Now()))
      ensures reply.BadStart? <==>
                || account.payer.None? || account.receiver.None? || account.dataService.None?
                || (account.receiver == Some(serviceProvider) && initial.Malformed?)
      ensures reply.StartRefused? ==>
                FirstStartRefusal(reply.reason, account, initial, signatureOk, authorized, serviceProvider)
      ensures reply.Started? ==> endpointConfigured
      ensures reply.Unconfigured? ==> !endpointConfigured
    {
      if account.payer.None? || account.receiver.None? || account.dataService.None? {
        return BadStart;
      }
      if account.receiver.value == serviceProvider && initial.Malformed? {
        return BadStart;
      }
      var refusal := JudgeStart(account, initial, signatureOk, authorized);
      if refusal.Some? {
        return StartRefused(refusal.value);
      }
      var made := CreateSession(id, account.payer.value, account.dataService.value, InitialOf(initial), now);
      reply := if !made then NotCreated else if endpointConfigured then Started else Unconfigured;
    }

    method CreateSession(id: SessionId, payer: Address, dataService: Address, initial: Option<SignedRav>, now: nat)
      returns (made: bool)
      requires Valid()
      modifies this`cells, repo
      ensures Valid()
      ensures var c := old(CellAt(id));
              && (made <==> c.session.None? && (initial.Some? ==>
                    NextCollectible(Lookup(c.records, initial.value.message.tuple), initial.value, now).Ok?))
              && (made ==> cells == old(cells)[id := DoStart(c, payer, serviceProvider, dataService, initial, now)]
                           && CellAt(id).session.Some?)
      ensures !made ==> cells == old(cells) && Now() == old(Now())
    {
      ghost var c, before := CellAt(id), Now();
      assert Mirrors(SliceAt(before, id), c, threshold);
      made := repo.SessionCreate(id, NewSession(payer, serviceProvider, dataService, initial, now), now);
      if made {
        ghost var c' := DoStart(c, payer, serviceProvider, dataService, initial, now);
        Advance(before, Now(), cells, threshold, id, c');
        cells := cells[id := c'];
      } else {
        assert Now() == before;
      }
    }

    /** `bindSession`: bind a new channel, deliver what is queued, then evaluate. */
    method BindSession(id: SessionId, balance: Option<nat>, evaluationFails: bool, now: nat) returns (reply: BindReply)
      requires Valid()
      modifies this`cells, repo, runtime
      ensures Valid()
      ensures var c := old(CellAt(id));
              && (reply.AlreadyBound? <==> id != "" && c.slot.events.Some?)
              && (reply.BindDone? <==> id != "" && c.slot.events.None? && !evaluationFails)
              && cells == if id == "" || c.slot.events.Some? then old(cells)
                          else if evaluationFails then old(cells)[id := DoUnbind(Flushed(DoBind(c)), c.nextId)]
                          else old(cells)[id := Bound(c, balance, now)]
    {
      if id == "" {
        return BindFailed;
      }
      ghost var c := CellAt(id);
      assert Mirrors(SliceAt(Now(), id), c, threshold);
      var chan := runtime.WireOf(id).nextId;
      var bound := OpenAndDeliver(id);
      if !bound {
        return AlreadyBound;
      }
      ghost var afresh := Flushed(DoBind(c));
      assert CellAt(id) == afresh;
      if evaluationFails {
        // The repository could not be read or written: the binding is undone.
        UnbindSession(id, chan);
        UpdateTwice(old(cells), id, afresh, DoUnbind(afresh, chan));
        return BindFailed;
      }
      EvaluateMeteredUsage(id, balance, now);
      UpdateTwice(old(cells), id, afresh, Evaluated(afresh, balance, now));
      reply := BindDone;
    }

    method OpenAndDeliver(id: SessionId) returns (bound: bool)
      requires Valid()
      modifies this`cells, runtime
      ensures Valid()
      ensures bound == old(CellAt(id)).slot.events.None?
      ensures cells == if bound then old(cells)[id := Flushed(DoBind(old(CellAt(id))))] else old(cells)
    {
      ghost var c, before := CellAt(id), Now();
      assert Mirrors(SliceAt(before, id), c, threshold);
      bound := RunBind(id, c);
      if bound {
        ghost var c1 := Flushed(DoBind(c));
        Advance(before, Now(), cells, threshold, id, c1);
        cells := cells[id := c1];
      }
    }

    method RunBind(id: SessionId, ghost c: Cell) returns (bound: bool)
      requires Mirrors(SliceAt(Now(), id), c, threshold)
      modifies runtime
      ensures bound == c.slot.events.None?
      ensures if bound
              then OnlyTouches(old(Now()), Now(), id) && Mirrors(SliceAt(Now(), id), Flushed(DoBind(c)), threshold)
              else Now() == old(Now())
    {
      var queued, pending;
      bound, queued, pending := runtime.OpenStream(id);
      if bound {
        BindFlushed(c);
        ghost var afresh := SliceAt(Now(), id);
        assert afresh == Slice(c.session, c.records, BindSlot(c.slot, c.nextId),
                               Wire(c.channels[c.nextId := []], c.nextId + 1));
        if queued.Some? {
          var placed := runtime.TryDeliver(id, Delivery(runtime.SlotOf(id).events.value, queued.value, pending));
          assert [] + [queued.value] == [queued.value];
          UpdateTwice(c.channels, c.nextId, [], [queued.value]);
        }
      }
    }

    method UnbindSession(id: SessionId, chan: Chan)
      requires Valid()
      modifies this`cells, runtime
      ensures Valid()
      ensures cells == old(cells)[id := DoUnbind(old(CellAt(id)), chan)]
    {
      ghost var c, before := CellAt(id), Now();
      assert Mirrors(SliceAt(before, id), c, threshold);
      runtime.Unbind(id, chan);
      assert Mirrors(SliceAt(Now(), id), DoUnbind(c, chan), threshold);
      assert OnlyTouches(before, Now(), id);
      Advance(before, Now(), cells, threshold, id, DoUnbind(c, chan));
      cells := cells[id := DoUnbind(c, chan)];
    }

    /** `handleFundsAcknowledgment`. */
    method HandleFundsAck(id: SessionId, willDeposit: Option<bool>) returns (reply: Message)
      requires Valid()
      modifies this`cells, runtime
      ensures Valid()
      ensures cells == if willDeposit.None? then old(cells) else old(cells)[id := DoFundsAck(old(CellAt(id)))]
      ensures reply == match willDeposit
                       case None => Stop(MissingAck)
                       case Some(yes) => if yes then Continue else Stop(NoDepositPlanned)
    {
      if willDeposit.None? {
        return Stop(MissingAck);
      }
      ghost var c, before := CellAt(id), Now();
      assert Mirrors(SliceAt(before, id), c, threshold);
      runtime.ClearQueuedControl(id);
      Advance(before, Now(), cells, threshold, id, DoFundsAck(c));
      cells := cells[id := DoFundsAck(c)];
      reply := if willDeposit.value then Continue else Stop(NoDepositPlanned);
    }

    /** `handleRAVSubmission`: judge the answer to the in-flight request, commit it, and re-evaluate. */
    method HandleRavSubmission(id: SessionId, sub: Submission, balance: Option<nat>, now: nat) returns (reply: Message)
      requires Valid()
      modifies this`cells, repo, runtime
      ensures Valid()
      ensures var (c', answer) := Submitted(old(CellAt(id)), sub, balance, now);
              cells == old(cells)[id := c'] && reply == answer
    {
      ghost var c := CellAt(id);
      reply := AcceptSubmission(id, sub, now);
      if reply == Continue {
        ghost var accepted := HandleSubmission(c, sub, now).0;
        assert CellAt(id) == accepted;
        EvaluateMeteredUsage(id, balance, now);
        UpdateTwice(old(cells), id, accepted, Evaluated(accepted, balance, now));
      }
    }

    method AcceptSubmission(id: SessionId, sub: Submission, now: nat) returns (reply: Message)
      requires Valid()
      modifies this`cells, repo, runtime
      ensures Valid()
      ensures var (c', answer) := HandleSubmission(old(CellAt(id)), sub, now);
              cells == old(cells)[id := c'] && reply == answer
    {
      ghost var c, before := CellAt(id), Now();
      assert Mirrors(SliceAt(before, id), c, threshold);
      reply := RunSubmission(id, sub, now, c);
      Advance(before, Now(), cells, threshold, id, HandleSubmission(c, sub, now).0);
      cells := cells[id := HandleSubmission(c, sub, now).0];
    }

    /** The checks in the order the handler makes them, then the commit. */
    method RunSubmission(id: SessionId, sub: Submission, now: nat, ghost c: Cell) returns (reply: Message)
      requires Mirrors(SliceAt(Now(), id), c, threshold)
      modifies repo, runtime
      ensures reply == HandleSubmission(c, sub, now).1
      ensures OnlyTouches(old(Now()), Now(), id)
      ensures Mirrors(SliceAt(Now(), id), HandleSubmission(c, sub, now).0, threshold)
    {
      if id !in repo.sessions {
        return Stop(SessionNotFound);
      }
      var session, pending := repo.sessions[id], runtime.SlotOf(id).pending;
      var refusal := JudgeSubmission(session, pending, sub);
      if refusal.Some? {
        return Stop(refusal.value);
      }
      reply := RunCommit(id, pending.value, sub.voucher.rav, now, c);
    }

    /** `commitAcceptedRAV`, then the request it answers is done with. */
    method RunCommit(id: SessionId, pending: Pending, rav: SignedRav, now: nat, ghost c: Cell) returns (reply: Message)
      requires Mirrors(SliceAt(Now(), id), c, threshold)
      modifies repo, runtime
      ensures OnlyTouches(old(Now()), Now(), id)
      ensures match Accept(c, pending, rav, now)
              case Err(_) => reply == Stop(CommitFailed) && Mirrors(SliceAt(Now(), id), c, threshold)
              case Ok(c') => reply == Continue && Mirrors(SliceAt(Now(), id), c', threshold)
    {
      var error := StoreRav(id, rav, pending.baseline, pending.baselineCost, now, c);
      if error.Some? {
        return Stop(CommitFailed);
      }
      ghost var stored := Now();
      runtime.ClearAnswered(id);
      assert OnlyTouches(stored, Now(), id);
      reply := Continue;
    }

    method StoreRav(id: SessionId, rav: SignedRav, baseline: Counters, baselineCost: nat, now: nat, ghost c: Cell)
      returns (error: Option<CollectionError>)
      requires Mirrors(SliceAt(Now(), id), c, threshold)
      modifies repo
      ensures OnlyTouches(old(Now()), Now(), id)
      ensures match Commit(c, rav, baseline, baselineCost, now)
              case Err(e) => error == Some(e) && Mirrors(SliceAt(Now(), id), c, threshold)
              case Ok(c') => error == None && Mirrors(SliceAt(Now(), id), c', threshold)
    {
      error := repo.SessionUpdateRavAndBaseline(id, rav, baseline, baselineCost, now);
    }

    method JudgeSubmission(session: Session, pending: Option<Pending>, sub: Submission)
      returns (refusal: Option<Reason>)
      ensures refusal == Refusal(session, pending, sub)
    {
      if sub.voucher.Missing? { return Some(MissingVoucher); }
      if pending.None? {
        if !IsActive(session) { return Some(InactiveReason(session.life.endReason)); }
        return Some(NoRequestInFlight);
      }
      if sub.usage.None? { return Some(MissingUsage); }
      var usage, expected := sub.usage.value, pending.value.usage;
      if usage.counters != expected.counters || usage.cost != Some(expected.cost) {
        return Some(UsageMismatch);
      }
      if sub.voucher.Malformed? { return Some(InvalidVoucher); }
      if !sub.signatureOk { return Some(BadSignature); }
      var rav := sub.voucher.rav.message;
      if rav.tuple.payer != session.payer { return Some(PayerMismatch); }
      if rav.tuple.serviceProvider != session.receiver { return Some(ProviderMismatch); }
      if rav.tuple.dataService != session.dataService { return Some(DataServiceMismatch); }
      if !sub.authorized { return Some(NotAuthorized); }
      if rav.value < pending.value.currentValue { return Some(BelowCurrent); }
      if rav.value < pending.value.target { return Some(Underpays); }
      if rav.value > pending.value.target { return Some(Overpays); }
      refusal := None;
    }

    /** `SubmitRAV`. The caller is told to stop exactly when the session is gone or over, the signer is
        not authorized, or the voucher is not below the current one and does not cover the metered cost. */
    method SubmitRav(id: SessionId, voucher: SubmittedRav, signatureOk: bool, authorized: bool, now: nat)
      returns (reply: UnaryReply)
      requires Valid()
      modifies this`cells, repo
      ensures Valid()
      ensures var c := old(CellAt(id));
              var (c', accepted) := if voucher.Given? then HandleUnary(c, voucher.rav, signatureOk, authorized, now)
                                    else (c, false);
              && cells == old(cells)[id := c']
              && (reply.Accepted? <==> accepted)
              && (reply.BadRequest? <==> Reads(c) && voucher.Malformed?)
              && (reply.Rejected? ==> FirstReason(reply.reason, c, voucher, signatureOk, authorized))
              && (reply.Rejected? && !reply.shouldContinue <==> TellsToStop(c, voucher, signatureOk, authorized))
    {
      ghost var c, before := CellAt(id), Now();
      assert Mirrors(SliceAt(before, id), c, threshold);
      reply := RunUnary(id, voucher, signatureOk, authorized, now, c);
      ghost var c' := if voucher.Given? then HandleUnary(c, voucher.rav, signatureOk, authorized, now).0 else c;
      Advance(before, Now(), cells, threshold, id, c');
      cells := cells[id := c'];
    }

    method RunUnary(id: SessionId, voucher: SubmittedRav, signatureOk: bool, authorized: bool, now: nat, ghost c: Cell)
      returns (reply: UnaryReply)
      requires Mirrors(SliceAt(Now(), id), c, threshold)
      modifies repo
      ensures OnlyTouches(old(Now()), Now(), id)
      ensures var (c', accepted) := if voucher.Given? then HandleUnary(c, voucher.rav, signatureOk, authorized, now)
                                    else (c, false);
              Mirrors(SliceAt(Now(), id), c', threshold) && (reply.Accepted? <==> accepted)
      ensures reply.BadRequest? <==> Reads(c) && voucher.Malformed?
      ensures reply.Rejected? ==> FirstReason(reply.reason, c, voucher, signatureOk, authorized)
      ensures reply.Rejected? && !reply.shouldContinue <==> TellsToStop(c, voucher, signatureOk, authorized)
    {
      if id !in repo.sessions { return Rejected(UnaryNotFound, false); }
      var session := repo.sessions[id];
      if !IsActive(session) { return Rejected(UnaryInactive, false); }
      if runtime.SlotOf(id).pending.Some? { return Rejected(UnaryPending, true); }
      if voucher.Missing? { return Rejected(UnaryMissing, true); }
      if voucher.Malformed? { return BadRequest; }
      if !signatureOk { return Rejected(UnarySignature, true); }
      if !authorized { return Rejected(UnaryNotAuthorized, false); }
      var rav := voucher.rav;
      if rav.message.tuple.payer != session.payer { return Rejected(UnaryPayer, true); }
      if rav.message.tuple.serviceProvider != session.receiver { return Rejected(UnaryProvider, true); }
      if session.rav.Some? && rav.message.value < session.rav.value.message.value {
        return Rejected(UnaryBelowCurrent, true);
      }
      var minimum := RavValue(session) + UsageSinceBaseline(session).cost;
      if rav.message.value < minimum { return Rejected(UnaryUnderpays, false); }
      // A failed write is only logged.
      var error := StoreRav(id, rav, session.used, session.totalCost, now, c);
      reply := Accepted;
    }

    /** The operator's three mark calls. */
    method MarkCollection(key: CollectionKey, mark: Record -> Outcome) returns (outcome: Outcome)
      requires Valid()
      modifies this`cells, repo
      ensures Valid()
      ensures var c := old(CellAt(key.sessionId));
              && cells == old(cells)[key.sessionId := DoMark(c, key.tuple, mark)]
              && outcome == if key.tuple in c.records then mark(c.records[key.tuple]) else Err(NotFound)
    {
      ghost var c, before := CellAt(key.sessionId), Now();
      assert Mirrors(SliceAt(before, key.sessionId), c, threshold);
      outcome := repo.UpdateCollection(key, mark);
      Advance(before, Now(), cells, threshold, key.sessionId, DoMark(c, key.tuple, mark));
      cells := cells[key.sessionId := DoMark(c, key.tuple, mark)];
    }

    /** The repository's records are those of the protocol state. */
    lemma RecordsAreCurrent(id: SessionId)
      requires Valid()
      ensures RecordsOf(repo.records, id) == if id in cells then cells[id].records else map[]
    {
      assert Mirrors(SliceAt(Now(), id), CellAt(id), threshold);
    }

    /** `SessionApplyUsage` and, when the session exists, the evaluation that follows it. */
    method OnMeteredUsage(id: SessionId, delta: Counters, cost: nat, balance: Option<nat>, now: nat)
      requires Valid()
      modifies this`cells, repo, runtime
      ensures Valid()
      ensures cells == if old(CellAt(id)).session.None? then old(cells)
                       else old(cells)[id := Metered(old(CellAt(id)), delta, cost, balance, now)]
    {
      ghost var c := CellAt(id);
      var found := ApplyUsage(id, delta, cost, now);
      if found {
        ghost var applied := DoUsage(c, delta, cost, now);
        assert CellAt(id) == applied;
        EvaluateMeteredUsage(id, balance, now);
        UpdateTwice(old(cells), id, applied, Evaluated(applied, balance, now));
      }
    }

    method ApplyUsage(id: SessionId, delta: Counters, cost: nat, now: nat) returns (found: bool)
      requires Valid()
      modifies this`cells, repo
      ensures Valid()
      ensures found == old(CellAt(id)).session.Some?
      ensures cells == if found then old(cells)[id := DoUsage(old(CellAt(id)), delta, cost, now)] else old(cells)
    {
      ghost var c, before := CellAt(id), Now();
      assert Mirrors(SliceAt(before, id), c, threshold);
      found := repo.SessionApplyUsage(id, delta, cost, now);
      if found {
        Advance(before, Now(), cells, threshold, id, DoUsage(c, delta, cost, now));
        cells := cells[id := DoUsage(c, delta, cost, now)];
      }
    }
  }
}
