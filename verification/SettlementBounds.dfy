/** How much a session can be paid: within its voucher, and within what was metered, as long as
    its vouchers stay on one settlement key; and how sessions that share a key are paid. */
module SettlementBounds {
  import opened Basics
  import opened Ledger
  import opened Collections
  import opened Protocol
  import opened ProtocolTheorems
  import opened SettlementKeys
  import opened Settlement

  // ---- The run of one session inside a settlement run ----

  /** The protocol step that a settlement step makes one session take, if any. */
  function Move(w: World, step: SettleStep): Option<(SessionId, Step)> {
    match step
    case Local(id, s) => if s.OpMarkCollected? then None else Some((id, s))
    case MarkAttempt(k, now) =>
      if k !in w.attempts || !w.attempts[k].phase.Listed? then None
      else
        var a := w.attempts[k];
        var t, records := a.record.rav.message.tuple, CellIn(w.cells, w.threshold, a.session).records;
        if t in records && MarkPending(records[t], a.record.value, "", now).Ok?
        then Some((a.session, OpMarkPending(t, a.record.value, "", now))) else None
    case Confirm(k, tx, now) =>
      if k !in w.attempts || !w.attempts[k].phase.Sent? || k !in w.succeeded then None
      else
        var a := w.attempts[k];
        Some((a.session, OpMarkCollected(a.record.rav.message.tuple, a.record.value, tx, None, now)))
    case GiveUp(k, tx, error, now) =>
      if k !in w.attempts || w.attempts[k].phase.Listed? then None
      else
        var a := w.attempts[k];
        Some((a.session, OpMarkRetryable(a.record.rav.message.tuple, a.record.value, tx, error, now)))
    case _ => None
  }

  lemma MoveIsStep(w: World, step: SettleStep)
    ensures SettleNext(w, step).threshold == w.threshold
    ensures SettleNext(w, step).cells ==
            match Move(w, step)
            case None => w.cells
            case Some((id, s)) => Stepped(w, id, s).cells
  {
  }

  /** The steps session `id` takes in a settlement run. */
  function Projected(threshold: nat, steps: seq<SettleStep>, id: SessionId): seq<Step> {
    if steps == [] then []
    else
      var front := steps[..|steps| - 1];
      var before, move := Projected(threshold, front, id),
                          Move(SettleExec(NewWorld(threshold), front), steps[|steps| - 1]);
      if move.Some? && move.value.0 == id then before + [move.value.1] else before
  }

  lemma {:induction false} ProjectedRuns(threshold: nat, steps: seq<SettleStep>, id: SessionId)
    ensures SettleExec(NewWorld(threshold), steps).threshold == threshold
    ensures CellIn(SettleExec(NewWorld(threshold), steps).cells, threshold, id) ==
            Exec(Init(threshold), Projected(threshold, steps, id))
  {
    if steps != [] {
      var front := steps[..|steps| - 1];
      ProjectedRuns(threshold, front, id);
      var w, before := SettleExec(NewWorld(threshold), front), Projected(threshold, front, id);
      MoveIsStep(w, steps[|steps| - 1]);
      var move := Move(w, steps[|steps| - 1]);
      if move.Some? && move.value.0 == id {
        assert (before + [move.value.1])[..|before|] == before;
      }
    }
  }

  // ---- Within the voucher ----

  /** On each tuple a session draws at most the value of its own record there. */
  lemma PaidToWithinRecord(threshold: nat, steps: seq<SettleStep>, id: SessionId, t: Tuple)
    requires PaidTo(SettleExec(NewWorld(threshold), steps).chain, id, t) > 0
    ensures var w := SettleExec(NewWorld(threshold), steps);
            && id in w.cells && t in w.cells[id].records
            && PaidTo(w.chain, id, t) <= w.cells[id].records[t].value
  {
    SettleRunKeepsInv(threshold, steps);
    var w := SettleExec(NewWorld(threshold), steps);
    assert LandedCovers(w.chain.landed, id, t, w.chain.paidTo[(id, t)]);
    var tx :| tx in w.chain.landed && tx.session == id && tx.tuple == t && w.chain.paidTo[(id, t)] <= tx.value;
    assert Backed(w.cells, tx);
  }

  lemma OneKeyIsSole(w: World, id: SessionId, t: Tuple)
    requires WorldInv(w) && CellIn(w.cells, w.threshold, id).records.Keys <= {t}
    ensures SoleKey(w.chain.landed, id, t)
  {
    forall tx <- w.chain.landed | tx.session == id ensures tx.tuple == t {
      assert Backed(w.cells, tx);
    }
  }

  /** A session all of whose vouchers are on one tuple is never paid more than its voucher, over all
      tuples together. By `OneKeyIff` the condition is that its records have one key. */
  lemma {:induction false} OneKeyPaidWithinVoucher(threshold: nat, steps: seq<SettleStep>, id: SessionId, t: Tuple)
    requires AllVouchersOn(Init(threshold), Projected(threshold, steps, id), t)
    ensures var w := SettleExec(NewWorld(threshold), steps);
            var s := CellIn(w.cells, threshold, id).session;
            Earned(w.chain, id) <= if s.None? then 0 else RavValue(s.value)
  {
    var run := Projected(threshold, steps, id);
    ProjectedRuns(threshold, steps, id);
    OneKeyIff(threshold, run, t);
    SettleRunKeepsInv(threshold, steps);
    var w := SettleExec(NewWorld(threshold), steps);
    OneKeyIsSole(w, id, t);
    assert Earned(w.chain, id) == PaidTo(w.chain, id, t);
    if PaidTo(w.chain, id, t) > 0 {
      PaidToWithinRecord(threshold, steps, id, t);
      RecordsMatchSession(threshold, run);
    }
  }

  predicate NoUnaryFor(steps: seq<SettleStep>, id: SessionId) {
    forall step <- steps :: step.Local? && step.id == id ==> !step.step.SubmitUnary?
  }

  lemma {:induction false} ProjectedNoUnary(threshold: nat, steps: seq<SettleStep>, id: SessionId)
    requires NoUnaryFor(steps, id)
    ensures NoUnary(Projected(threshold, steps, id))
  {
    if steps != [] {
      ProjectedNoUnary(threshold, steps[..|steps| - 1], id);
      assert steps[|steps| - 1] in steps;
    }
  }

  /** Payment never runs ahead of metering: without the unary call, and on one key, a session is paid at
      most what it opened with plus everything it was metered. */
  lemma {:induction false} OneKeyPaidWithinMetered(threshold: nat, steps: seq<SettleStep>, id: SessionId, t: Tuple)
    requires AllVouchersOn(Init(threshold), Projected(threshold, steps, id), t) && NoUnaryFor(steps, id)
    requires var s := CellIn(SettleExec(NewWorld(threshold), steps).cells, threshold, id).session;
             s.Some? && s.value.totalCost < U256
    ensures var w := SettleExec(NewWorld(threshold), steps);
            var s := CellIn(w.cells, threshold, id).session.value;
            Earned(w.chain, id) <= Opening(Init(threshold), Projected(threshold, steps, id)) + s.totalCost
  {
    OneKeyPaidWithinVoucher(threshold, steps, id, t);
    ProjectedRuns(threshold, steps, id);
    ProjectedNoUnary(threshold, steps, id);
    VoucherWithinMetered(threshold, Projected(threshold, steps, id));
  }

  // ---- Sessions that share a tuple ----

  function ValueOn(c: Cell, t: Tuple): nat {
    if t in c.records then c.records[t].value else 0
  }

  /** The sum of the sessions' records on a tuple. */
  ghost function SumOn(cells: map<SessionId, Cell>, ids: set<SessionId>, t: Tuple): nat
    requires ids <= cells.Keys
  {
    if ids == {} then 0
    else
      var id :| id in ids;
      ValueOn(cells[id], t) + SumOn(cells, ids - {id}, t)
  }

  lemma {:induction false} SumSplit(cells: map<SessionId, Cell>, ids: set<SessionId>, t: Tuple, one: SessionId)
    requires ids <= cells.Keys && one in ids
    ensures SumOn(cells, ids, t) == ValueOn(cells[one], t) + SumOn(cells, ids - {one}, t)
    decreases ids
  {
    var id :| id in ids && SumOn(cells, ids, t) == ValueOn(cells[id], t) + SumOn(cells, ids - {id}, t);
    if id != one {
      SumSplit(cells, ids - {id}, t, one);
      SumSplit(cells, ids - {one}, t, id);
      assert ids - {id} - {one} == ids - {one} - {id};
    }
  }

  lemma {:induction false} SumZeroIff(cells: map<SessionId, Cell>, ids: set<SessionId>, t: Tuple)
    requires ids <= cells.Keys
    ensures SumOn(cells, ids, t) == 0 <==> forall id <- ids :: ValueOn(cells[id], t) == 0
    decreases ids
  {
    if ids != {} {
      var one :| one in ids;
      SumSplit(cells, ids, t, one);
      SumZeroIff(cells, ids - {one}, t);
      assert forall id <- ids :: id == one || id in ids - {one};
    }
  }

  /** At most one session has anything on the tuple. */
  predicate OnePayer(cells: map<SessionId, Cell>, t: Tuple) {
    forall a <- cells, b <- cells :: a != b ==> ValueOn(cells[a], t) == 0 || ValueOn(cells[b], t) == 0
  }

  /** When every record on a tuple is marked collected, the amount paid is their sum if and only if at
      most one of them is worth anything; otherwise it falls short. */
  lemma {:induction false} SharedTuplePaysSumIff(threshold: nat, steps: seq<SettleStep>, t: Tuple, one: SessionId)
    requires var w := SettleExec(NewWorld(threshold), steps);
             AllCollected(w.cells, t) && one in w.cells && t in w.cells[one].records
    ensures var w := SettleExec(NewWorld(threshold), steps);
            var paid, sum := Amount(w.chain.paid, t), SumOn(w.cells, w.cells.Keys, t);
            paid <= sum && (paid == sum <==> OnePayer(w.cells, t))
  {
    var w := SettleExec(NewWorld(threshold), steps);
    SharedTuplePaysLargest(threshold, steps, t, one);
    var top :| top in w.cells && t in w.cells[top].records && w.cells[top].records[t].value == Amount(w.chain.paid, t);
    SumSplit(w.cells, w.cells.Keys, t, top);
    SumZeroIff(w.cells, w.cells.Keys - {top}, t);
    forall id <- w.cells ensures ValueOn(w.cells[id], t) <= ValueOn(w.cells[top], t) {
    }
    if OnePayer(w.cells, t) {
      forall id <- w.cells.Keys - {top} ensures ValueOn(w.cells[id], t) == 0 {
        assert id in w.cells && id != top;
      }
    }
  }
}
