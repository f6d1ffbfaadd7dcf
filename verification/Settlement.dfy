/** Settlement of vouchers: the collector's attempts, the transactions it leaves behind and a chain
    that pays out the increase over what a tuple has already collected.

    Attempts overlap freely, snapshots go stale, the collector may crash at any point, transactions
    may be mined long after their sender gave up, and sessions keep accepting vouchers meanwhile. */
module Settlement {
  import opened Basics
  import opened Ledger
  import opened Collections
  import opened Protocol
  import opened ProtocolSafety
  import opened ProtocolTheorems

  datatype Phase = Listed | Marked | Sent

  /** One `collectOne` call, working from the record it was listed. */
  datatype Attempt = Attempt(session: SessionId, record: Record, phase: Phase)

  /** A `collect` transaction for one voucher. */
  datatype Tx = Tx(session: SessionId, tuple: Tuple, value: nat)

  function TxOf(a: Attempt): Tx {
    Tx(a.session, a.record.rav.message.tuple, a.record.rav.message.value)
  }

  /** `collected` is the collector's cumulative amount per tuple and `paid` what was transferred so far.
      `landed` are the transactions that succeeded, `paidTo` splits the transfers by the session whose
      voucher drew them, and `earned` adds them up per session: all three are history. */
  datatype Chain = Chain(
    collected: map<Tuple, nat>,
    paid: map<Tuple, nat>,
    landed: set<Tx>,
    paidTo: map<(SessionId, Tuple), nat>,
    earned: map<SessionId, nat>)

  function Amount(m: map<Tuple, nat>, t: Tuple): nat {
    if t in m then m[t] else 0
  }

  function PaidTo(chain: Chain, id: SessionId, t: Tuple): nat {
    if (id, t) in chain.paidTo then chain.paidTo[(id, t)] else 0
  }

  function Earned(chain: Chain, id: SessionId): nat {
    if id in chain.earned then chain.earned[id] else 0
  }

  /** A successful transaction transfers what the voucher adds, which is nothing for a settled one. */
  function Settle(chain: Chain, tx: Tx): Chain {
    var before := Amount(chain.collected, tx.tuple);
    var delta := if tx.value > before then tx.value - before else 0;
    Chain(chain.collected[tx.tuple := before + delta],
          chain.paid[tx.tuple := Amount(chain.paid, tx.tuple) + delta],
          chain.landed + {tx},
          chain.paidTo[(tx.session, tx.tuple) := PaidTo(chain, tx.session, tx.tuple) + delta],
          chain.earned[tx.session := Earned(chain, tx.session) + delta])
  }

  /** `mempool` and `succeeded` are indexed by the attempt that sent the transaction. */
  datatype World = World(
    threshold: nat,
    cells: map<SessionId, Cell>,
    attempts: map<nat, Attempt>,
    mempool: map<nat, Tx>,
    succeeded: set<nat>,
    chain: Chain,
    nextAttempt: nat)

  function NewWorld(threshold: nat): World {
    World(threshold, map[], map[], map[], {}, Chain(map[], map[], {}, map[], map[]), 0)
  }

  /** `Local` is any step of one session, including operator marks from any stale listing: a reclaim
      is `OpMarkRetryable`. Only `Confirm` marks a record collected. A listing may be stale by the
      time an attempt works from it: values under a key only grow, so it is any matching record of
      at most the current value. */
  datatype SettleStep =
    | Local(id: SessionId, step: Step)
    | List(id: SessionId, record: Record)
    | MarkAttempt(attempt: nat, now: nat)
    | Broadcast(attempt: nat)
    | Land(attempt: nat, success: bool)
    | Confirm(attempt: nat, tx: string, now: nat)
    | GiveUp(attempt: nat, tx: string, error: string, now: nat)
    | Crash

  function Stepped(w: World, id: SessionId, step: Step): World {
    w.(cells := w.cells[id := Next(CellIn(w.cells, w.threshold, id), step)])
  }

  predicate Seen(cells: map<SessionId, Cell>, id: SessionId, r: Record) {
    r.value == r.rav.message.value && Backed(cells, Tx(id, r.rav.message.tuple, r.value))
  }

  function DoList(w: World, id: SessionId, r: Record): World {
    if !Seen(w.cells, id, r) then w
    else w.(attempts := w.attempts[w.nextAttempt := Attempt(id, r, Listed)], nextAttempt := w.nextAttempt + 1)
  }

  /** The mark may be refused because the record has moved on; the attempt then ends. */
  function DoMarkAttempt(w: World, k: nat, now: nat): World {
    if k !in w.attempts || !w.attempts[k].phase.Listed? then w
    else
      var a := w.attempts[k];
      var t := a.record.rav.message.tuple;
      var c := CellIn(w.cells, w.threshold, a.session);
      if t in c.records && MarkPending(c.records[t], a.record.value, "", now).Ok?
      then Stepped(w, a.session, OpMarkPending(t, a.record.value, "", now))
             .(attempts := w.attempts[k := a.(phase := Marked)])
      else w.(attempts := w.attempts - {k})
  }

  function DoBroadcast(w: World, k: nat): World {
    if k !in w.attempts || !w.attempts[k].phase.Marked? then w
    else w.(attempts := w.attempts[k := w.attempts[k].(phase := Sent)], mempool := w.mempool[k := TxOf(w.attempts[k])])
  }

  function DoLand(w: World, k: nat, success: bool): World {
    if k !in w.mempool then w
    else if !success then w.(mempool := w.mempool - {k})
    else w.(mempool := w.mempool - {k}, succeeded := w.succeeded + {k}, chain := Settle(w.chain, w.mempool[k]))
  }

  /** The receipt said success. */
  function DoConfirm(w: World, k: nat, tx: string, now: nat): World {
    if k !in w.attempts || !w.attempts[k].phase.Sent? || k !in w.succeeded then w
    else
      var a := w.attempts[k];
      Stepped(w, a.session, OpMarkCollected(a.record.rav.message.tuple, a.record.value, tx, None, now))
        .(attempts := w.attempts - {k})
  }

  /** Sending failed, timed out or reverted: the transaction may still be in the mempool or mined. */
  function DoGiveUp(w: World, k: nat, tx: string, error: string, now: nat): World {
    if k !in w.attempts || w.attempts[k].phase.Listed? then w
    else
      var a := w.attempts[k];
      Stepped(w, a.session, OpMarkRetryable(a.record.rav.message.tuple, a.record.value, tx, error, now))
        .(attempts := w.attempts - {k})
  }

  function SettleNext(w: World, step: SettleStep): World {
    match step
    case Local(id, s) => if s.OpMarkCollected? then w else Stepped(w, id, s)
    case List(id, r) => DoList(w, id, r)
    case MarkAttempt(k, now) => DoMarkAttempt(w, k, now)
    case Broadcast(k) => DoBroadcast(w, k)
    case Land(k, success) => DoLand(w, k, success)
    case Confirm(k, tx, now) => DoConfirm(w, k, tx, now)
    case GiveUp(k, tx, error, now) => DoGiveUp(w, k, tx, error, now)
    case Crash => w.(attempts := map[])
  }

  function SettleExec(w: World, steps: seq<SettleStep>): World {
    if steps == [] then w else SettleNext(SettleExec(w, steps[..|steps| - 1]), steps[|steps| - 1])
  }

  // ---- The invariant ----

  ghost predicate CellsReached(cells: map<SessionId, Cell>) {
    forall id <- cells :: Reachable(cells[id])
  }

  /** The chain pays each tuple the largest value that landed. */
  predicate ChainExact(chain: Chain) {
    && chain.paid == chain.collected
    && (forall tx <- chain.landed :: tx.tuple in chain.collected && tx.value <= chain.collected[tx.tuple])
    && (forall t <- chain.collected :: exists tx <- chain.landed :: tx.tuple == t && tx.value == chain.collected[t])
  }

  /** Every transaction of the session is on one tuple. */
  predicate SoleKey(landed: set<Tx>, id: SessionId, t: Tuple) {
    forall tx <- landed :: tx.session == id ==> tx.tuple == t
  }

  predicate LandedCovers(landed: set<Tx>, id: SessionId, t: Tuple, v: nat) {
    exists tx <- landed :: tx.session == id && tx.tuple == t && v <= tx.value
  }

  /** A session's transfers on a tuple are within a value of its own that landed there. */
  ghost predicate Attributed(chain: Chain) {
    && (forall k <- chain.paidTo ::
          chain.paidTo[k] <= Amount(chain.collected, k.1) && LandedCovers(chain.landed, k.0, k.1, chain.paidTo[k]))
    && (forall id: SessionId, t: Tuple :: SoleKey(chain.landed, id, t) ==> Earned(chain, id) == PaidTo(chain, id, t))
  }

  /** The session still holds a record of at least this value. */
  predicate Backed(cells: map<SessionId, Cell>, tx: Tx) {
    tx.session in cells && tx.tuple in cells[tx.session].records &&
      tx.value <= cells[tx.session].records[tx.tuple].value
  }

  predicate AllBacked(cells: map<SessionId, Cell>, attempts: map<nat, Attempt>, mempool: map<nat, Tx>, landed: set<Tx>)
  {
    && (forall k <- attempts :: Backed(cells, TxOf(attempts[k])) && attempts[k].record.value == TxOf(attempts[k]).value)
    && (forall k <- mempool :: Backed(cells, mempool[k]))
    && (forall tx <- landed :: Backed(cells, tx))
  }

  predicate CellOnChain(c: Cell, collected: map<Tuple, nat>) {
    forall t <- c.records :: c.records[t].state == Collected ==> c.records[t].value <= Amount(collected, t)
  }

  predicate CollectedOnChain(cells: map<SessionId, Cell>, collected: map<Tuple, nat>) {
    forall id <- cells :: CellOnChain(cells[id], collected)
  }

  /** A transaction is its attempt's, and one that succeeded has been settled. */
  predicate Tracked(k: nat, a: Attempt, mempool: map<nat, Tx>, succeeded: set<nat>, collected: map<Tuple, nat>) {
    && (!a.phase.Sent? ==> k !in mempool && k !in succeeded)
    && (k in mempool ==> mempool[k] == TxOf(a))
    && (k in succeeded ==> TxOf(a).value <= Amount(collected, TxOf(a).tuple))
  }

  predicate AttemptsTracked(attempts: map<nat, Attempt>, mempool: map<nat, Tx>, succeeded: set<nat>,
                            collected: map<Tuple, nat>, nextAttempt: nat) {
    && (forall k <- attempts :: k < nextAttempt && Tracked(k, attempts[k], mempool, succeeded, collected))
    && (forall k <- mempool :: k < nextAttempt)
    && (forall k <- succeeded :: k < nextAttempt)
  }

  ghost predicate WorldInv(w: World) {
    && CellsReached(w.cells)
    && ChainExact(w.chain)
    && Attributed(w.chain)
    && AllBacked(w.cells, w.attempts, w.mempool, w.chain.landed)
    && CollectedOnChain(w.cells, w.chain.collected)
    && AttemptsTracked(w.attempts, w.mempool, w.succeeded, w.chain.collected, w.nextAttempt)
  }

  // ---- A step of one session ----

  lemma ReachableInv(c: Cell)
    requires Reachable(c)
    ensures Inv(c)
  {
    var threshold: nat, steps: seq<Step> :| c == Exec(Init(threshold), steps);
    RunKeepsInv(threshold, steps);
  }

  lemma InReach(cells: map<SessionId, Cell>, threshold: nat, id: SessionId)
    requires CellsReached(cells)
    ensures Reachable(CellIn(cells, threshold, id)) && Inv(CellIn(cells, threshold, id))
  {
    assert Init(threshold) == Exec(Init(threshold), []);
    ReachableInv(CellIn(cells, threshold, id));
  }

  lemma SteppedReached(w: World, id: SessionId, step: Step)
    requires CellsReached(w.cells)
    ensures CellsReached(Stepped(w, id, step).cells)
  {
    InReach(w.cells, w.threshold, id);
    var c' := ReachNext(CellIn(w.cells, w.threshold, id), step);
  }

  lemma SteppedBacks(w: World, id: SessionId, step: Step, tx: Tx)
    requires CellsReached(w.cells) && Backed(w.cells, tx)
    ensures Backed(Stepped(w, id, step).cells, tx)
  {
    if tx.session == id {
      ReachableInv(w.cells[id]);
      RecordStep(w.cells[id], step, tx.tuple);
    }
  }

  lemma SteppedAllBacked(w: World, id: SessionId, step: Step)
    requires CellsReached(w.cells) && AllBacked(w.cells, w.attempts, w.mempool, w.chain.landed)
    ensures AllBacked(Stepped(w, id, step).cells, w.attempts, w.mempool, w.chain.landed)
  {
    forall tx | Backed(w.cells, tx) ensures Backed(Stepped(w, id, step).cells, tx) {
      SteppedBacks(w, id, step, tx);
    }
  }

  /** No gateway step and no other mark makes a record collected. */
  lemma OnlyConfirmCollects(c: Cell, step: Step, t: Tuple)
    requires !step.OpMarkCollected? && t in Next(c, step).records && Next(c, step).records[t].state == Collected
    ensures t in c.records && c.records[t] == Next(c, step).records[t]
  {
  }

  lemma SteppedOnChain(w: World, id: SessionId, step: Step)
    requires CollectedOnChain(w.cells, w.chain.collected)
    requires step.OpMarkCollected? ==> step.expected <= Amount(w.chain.collected, step.tuple)
    ensures CollectedOnChain(Stepped(w, id, step).cells, w.chain.collected)
  {
    var c := CellIn(w.cells, w.threshold, id);
    assert CellOnChain(c, w.chain.collected);
    forall t <- Next(c, step).records | Next(c, step).records[t].state == Collected
      ensures Next(c, step).records[t].value <= Amount(w.chain.collected, t)
    {
      if !step.OpMarkCollected? {
        OnlyConfirmCollects(c, step, t);
      }
    }
  }

  lemma SteppedKeepsInv(w: World, id: SessionId, step: Step)
    requires WorldInv(w)
    requires step.OpMarkCollected? ==> step.expected <= Amount(w.chain.collected, step.tuple)
    ensures WorldInv(Stepped(w, id, step))
  {
    SteppedReached(w, id, step);
    SteppedAllBacked(w, id, step);
    SteppedOnChain(w, id, step);
  }

  // ---- The steps of an attempt ----

  /** A listing taken now is one an attempt may work from, and stays so whatever happens. */
  lemma ListedIsSeen(w: World, id: SessionId, t: Tuple)
    requires CellsReached(w.cells) && id in w.cells && t in w.cells[id].records
    ensures w.cells[id].records[t].rav.message.tuple == t && Seen(w.cells, id, w.cells[id].records[t])
  {
    ReachableInv(w.cells[id]);
  }

  lemma SeenLasts(w: World, id: SessionId, step: Step, who: SessionId, r: Record)
    requires CellsReached(w.cells) && Seen(w.cells, who, r)
    ensures Seen(Stepped(w, id, step).cells, who, r)
  {
    SteppedBacks(w, id, step, Tx(who, r.rav.message.tuple, r.value));
  }

  lemma ListKeepsTracked(attempts: map<nat, Attempt>, mempool: map<nat, Tx>, succeeded: set<nat>,
                         collected: map<Tuple, nat>, nextAttempt: nat, a: Attempt)
    requires AttemptsTracked(attempts, mempool, succeeded, collected, nextAttempt) && a.phase.Listed?
    ensures AttemptsTracked(attempts[nextAttempt := a], mempool, succeeded, collected, nextAttempt + 1)
  {
  }

  lemma ListKeepsBacked(cells: map<SessionId, Cell>, attempts: map<nat, Attempt>, mempool: map<nat, Tx>,
                        landed: set<Tx>, k: nat, a: Attempt)
    requires AllBacked(cells, attempts, mempool, landed) && Seen(cells, a.session, a.record)
    ensures AllBacked(cells, attempts[k := a], mempool, landed)
  {
    assert TxOf(a) == Tx(a.session, a.record.rav.message.tuple, a.record.value);
  }

  lemma ListKeepsInv(w: World, id: SessionId, r: Record)
    requires WorldInv(w)
    ensures WorldInv(DoList(w, id, r))
  {
    if Seen(w.cells, id, r) {
      var a := Attempt(id, r, Listed);
      ListKeepsTracked(w.attempts, w.mempool, w.succeeded, w.chain.collected, w.nextAttempt, a);
      ListKeepsBacked(w.cells, w.attempts, w.mempool, w.chain.landed, w.nextAttempt, a);
    }
  }

  lemma RephaseKeepsInv(w: World, k: nat, phase: Phase)
    requires WorldInv(w) && k in w.attempts && k !in w.mempool && k !in w.succeeded
    ensures WorldInv(w.(attempts := w.attempts[k := w.attempts[k].(phase := phase)]))
  {
    var a, attempts := w.attempts[k].(phase := phase), w.attempts[k := w.attempts[k].(phase := phase)];
    assert TxOf(a) == TxOf(w.attempts[k]);
    assert AttemptsTracked(attempts, w.mempool, w.succeeded, w.chain.collected, w.nextAttempt);
    assert AllBacked(w.cells, attempts, w.mempool, w.chain.landed);
  }

  lemma DropKeepsInv(w: World, k: nat)
    requires WorldInv(w)
    ensures WorldInv(w.(attempts := w.attempts - {k}))
  {
  }

  lemma MarkedKeepsInv(w: World, k: nat, step: Step)
    requires WorldInv(w) && k in w.attempts && w.attempts[k].phase.Listed? && step.OpMarkPending?
    ensures var a := w.attempts[k];
            WorldInv(Stepped(w, a.session, step).(attempts := w.attempts[k := a.(phase := Marked)]))
  {
    SteppedKeepsInv(w, w.attempts[k].session, step);
    RephaseKeepsInv(Stepped(w, w.attempts[k].session, step), k, Marked);
  }

  lemma MarkAttemptKeepsInv(w: World, k: nat, now: nat)
    requires WorldInv(w)
    ensures WorldInv(DoMarkAttempt(w, k, now))
  {
    var w' := DoMarkAttempt(w, k, now);
    if k in w.attempts && w.attempts[k].phase.Listed? {
      var a := w.attempts[k];
      var step := OpMarkPending(a.record.rav.message.tuple, a.record.value, "", now);
      if k in w'.attempts {
        assert w' == Stepped(w, a.session, step).(attempts := w.attempts[k := a.(phase := Marked)]);
        MarkedKeepsInv(w, k, step);
      } else {
        assert w' == w.(attempts := w.attempts - {k});
        DropKeepsInv(w, k);
      }
    }
  }

  lemma BroadcastKeepsTracked(attempts: map<nat, Attempt>, mempool: map<nat, Tx>, succeeded: set<nat>,
                              collected: map<Tuple, nat>, nextAttempt: nat, k: nat)
    requires AttemptsTracked(attempts, mempool, succeeded, collected, nextAttempt)
    requires k in attempts && attempts[k].phase.Marked?
    ensures AttemptsTracked(attempts[k := attempts[k].(phase := Sent)], mempool[k := TxOf(attempts[k])], succeeded,
                            collected, nextAttempt)
  {
  }

  lemma BroadcastKeepsBacked(cells: map<SessionId, Cell>, attempts: map<nat, Attempt>, mempool: map<nat, Tx>,
                             landed: set<Tx>, k: nat)
    requires AllBacked(cells, attempts, mempool, landed) && k in attempts
    ensures AllBacked(cells, attempts[k := attempts[k].(phase := Sent)], mempool[k := TxOf(attempts[k])], landed)
  {
    assert TxOf(attempts[k].(phase := Sent)) == TxOf(attempts[k]);
  }

  lemma BroadcastKeepsInv(w: World, k: nat)
    requires WorldInv(w)
    ensures WorldInv(DoBroadcast(w, k))
  {
    if k in w.attempts && w.attempts[k].phase.Marked? {
      BroadcastKeepsTracked(w.attempts, w.mempool, w.succeeded, w.chain.collected, w.nextAttempt, k);
      BroadcastKeepsBacked(w.cells, w.attempts, w.mempool, w.chain.landed, k);
    }
  }

  lemma SettleExact(chain: Chain, tx: Tx)
    requires ChainExact(chain)
    ensures ChainExact(Settle(chain, tx))
    ensures forall t :: Amount(chain.collected, t) <= Amount(Settle(chain, tx).collected, t)
    ensures tx.value <= Amount(Settle(chain, tx).collected, tx.tuple)
  {
    var after := Settle(chain, tx);
    forall t <- after.collected ensures exists x <- after.landed :: x.tuple == t && x.value == after.collected[t] {
      if t in chain.collected && after.collected[t] == chain.collected[t] {
        var x :| x in chain.landed && x.tuple == t && x.value == chain.collected[t];
        assert x in after.landed;
      } else {
        assert tx in after.landed;
      }
    }
  }

  lemma SettleKeepsCover(chain: Chain, tx: Tx, k: (SessionId, Tuple))
    requires ChainExact(chain) && Attributed(chain) && k in Settle(chain, tx).paidTo
    ensures var after := Settle(chain, tx);
            after.paidTo[k] <= Amount(after.collected, k.1) && LandedCovers(after.landed, k.0, k.1, after.paidTo[k])
  {
    var after := Settle(chain, tx);
    assert tx in after.landed;
    if k in chain.paidTo && after.paidTo[k] == chain.paidTo[k] {
      var x :| x in chain.landed && x.session == k.0 && x.tuple == k.1 && chain.paidTo[k] <= x.value;
      assert x in after.landed;
    } else {
      assert k == (tx.session, tx.tuple) && after.paidTo[k] <= tx.value;
    }
  }

  lemma SettleKeepsSole(chain: Chain, tx: Tx, id: SessionId, t: Tuple)
    requires Attributed(chain) && SoleKey(Settle(chain, tx).landed, id, t)
    ensures Earned(Settle(chain, tx), id) == PaidTo(Settle(chain, tx), id, t)
  {
    assert tx in Settle(chain, tx).landed;
    assert SoleKey(chain.landed, id, t);
  }

  lemma SettleAttributes(chain: Chain, tx: Tx)
    requires ChainExact(chain) && Attributed(chain)
    ensures Attributed(Settle(chain, tx))
  {
    var after := Settle(chain, tx);
    forall k <- after.paidTo
      ensures after.paidTo[k] <= Amount(after.collected, k.1) && LandedCovers(after.landed, k.0, k.1, after.paidTo[k])
    {
      SettleKeepsCover(chain, tx, k);
    }
    forall id: SessionId, t: Tuple | SoleKey(after.landed, id, t) ensures Earned(after, id) == PaidTo(after, id, t) {
      SettleKeepsSole(chain, tx, id, t);
    }
  }

  lemma LandKeepsTracked(attempts: map<nat, Attempt>, mempool: map<nat, Tx>, succeeded: set<nat>, chain: Chain,
                         nextAttempt: nat, k: nat)
    requires AttemptsTracked(attempts, mempool, succeeded, chain.collected, nextAttempt) && ChainExact(chain) &&
             k in mempool
    ensures AttemptsTracked(attempts, mempool - {k}, succeeded + {k}, Settle(chain, mempool[k]).collected, nextAttempt)
  {
    var tx := mempool[k];
    SettleExact(chain, tx);
    forall j <- attempts ensures Tracked(j, attempts[j], mempool - {k}, succeeded + {k}, Settle(chain, tx).collected) {
      assert Tracked(j, attempts[j], mempool, succeeded, chain.collected);
      var t := TxOf(attempts[j]).tuple;
      assert Amount(chain.collected, t) <= Amount(Settle(chain, tx).collected, t);
    }
  }

  lemma MoreCollected(cells: map<SessionId, Cell>, before: map<Tuple, nat>, after: map<Tuple, nat>)
    requires CollectedOnChain(cells, before) && forall t :: Amount(before, t) <= Amount(after, t)
    ensures CollectedOnChain(cells, after)
  {
    forall id <- cells ensures CellOnChain(cells[id], after) {
      assert CellOnChain(cells[id], before);
    }
  }

  lemma LandKeepsBacked(cells: map<SessionId, Cell>, attempts: map<nat, Attempt>, mempool: map<nat, Tx>,
                        landed: set<Tx>, k: nat)
    requires AllBacked(cells, attempts, mempool, landed) && k in mempool
    ensures AllBacked(cells, attempts, mempool - {k}, landed + {mempool[k]})
  {
  }

  lemma LandKeepsInv(w: World, k: nat, success: bool)
    requires WorldInv(w)
    ensures WorldInv(DoLand(w, k, success))
  {
    if k in w.mempool && success {
      var chain' := Settle(w.chain, w.mempool[k]);
      SettleExact(w.chain, w.mempool[k]);
      SettleAttributes(w.chain, w.mempool[k]);
      LandKeepsTracked(w.attempts, w.mempool, w.succeeded, w.chain, w.nextAttempt, k);
      LandKeepsBacked(w.cells, w.attempts, w.mempool, w.chain.landed, k);
      MoreCollected(w.cells, w.chain.collected, chain'.collected);
    }
  }

  lemma ConfirmKeepsInv(w: World, k: nat, tx: string, now: nat)
    requires WorldInv(w)
    ensures WorldInv(DoConfirm(w, k, tx, now))
  {
    if k in w.attempts && w.attempts[k].phase.Sent? && k in w.succeeded {
      var a := w.attempts[k];
      var step := OpMarkCollected(a.record.rav.message.tuple, a.record.value, tx, None, now);
      SteppedKeepsInv(w, a.session, step);
      DropKeepsInv(Stepped(w, a.session, step), k);
    }
  }

  lemma GiveUpKeepsInv(w: World, k: nat, tx: string, error: string, now: nat)
    requires WorldInv(w)
    ensures WorldInv(DoGiveUp(w, k, tx, error, now))
  {
    if k in w.attempts && !w.attempts[k].phase.Listed? {
      var a := w.attempts[k];
      var step := OpMarkRetryable(a.record.rav.message.tuple, a.record.value, tx, error, now);
      SteppedKeepsInv(w, a.session, step);
      DropKeepsInv(Stepped(w, a.session, step), k);
    }
  }

  lemma SettleStepKeepsInv(w: World, step: SettleStep)
    requires WorldInv(w)
    ensures WorldInv(SettleNext(w, step))
  {
    match step
    case Local(id, s) => if !s.OpMarkCollected? { SteppedKeepsInv(w, id, s); }
    case List(id, r) => ListKeepsInv(w, id, r);
    case MarkAttempt(k, now) => MarkAttemptKeepsInv(w, k, now);
    case Broadcast(k) => BroadcastKeepsInv(w, k);
    case Land(k, success) => LandKeepsInv(w, k, success);
    case Confirm(k, tx, now) => ConfirmKeepsInv(w, k, tx, now);
    case GiveUp(k, tx, error, now) => GiveUpKeepsInv(w, k, tx, error, now);
    case Crash =>
  }

  lemma {:induction false} SettleFromKeepsInv(w: World, steps: seq<SettleStep>)
    requires WorldInv(w)
    ensures WorldInv(SettleExec(w, steps))
  {
    if steps != [] {
      SettleFromKeepsInv(w, steps[..|steps| - 1]);
      SettleStepKeepsInv(SettleExec(w, steps[..|steps| - 1]), steps[|steps| - 1]);
    }
  }

  lemma SettleRunKeepsInv(threshold: nat, steps: seq<SettleStep>)
    ensures WorldInv(SettleExec(NewWorld(threshold), steps))
  {
    SettleFromKeepsInv(NewWorld(threshold), steps);
  }

  /** Once a record was listed, an attempt may still work from it after any step. */
  lemma SeenStep(w: World, step: SettleStep, who: SessionId, r: Record)
    requires CellsReached(w.cells) && Seen(w.cells, who, r)
    ensures Seen(SettleNext(w, step).cells, who, r)
  {
    match step
    case Local(id, s) => SeenLasts(w, id, s, who, r);
    case MarkAttempt(k, now) =>
      if k in w.attempts {
        var a := w.attempts[k];
        SeenLasts(w, a.session, OpMarkPending(a.record.rav.message.tuple, a.record.value, "", now), who, r);
      }
    case Confirm(k, tx, now) =>
      if k in w.attempts {
        var a := w.attempts[k];
        SeenLasts(w, a.session, OpMarkCollected(a.record.rav.message.tuple, a.record.value, tx, None, now), who, r);
      }
    case GiveUp(k, tx, error, now) =>
      if k in w.attempts {
        var a := w.attempts[k];
        SeenLasts(w, a.session, OpMarkRetryable(a.record.rav.message.tuple, a.record.value, tx, error, now), who, r);
      }
    case _ =>
  }

  // ---- What is paid ----

  ghost predicate Largest(values: set<Tx>, t: Tuple, v: nat) {
    && (forall tx <- values :: tx.tuple == t ==> tx.value <= v)
    && (exists tx <- values :: tx.tuple == t && tx.value == v)
  }

  /** In every run, what a tuple was paid is the largest value whose transaction succeeded, and a
      record marked collected is covered by it. */
  lemma SettlementIdempotent(threshold: nat, steps: seq<SettleStep>, t: Tuple)
    ensures var w := SettleExec(NewWorld(threshold), steps);
            var paid := Amount(w.chain.paid, t);
            && (if exists tx <- w.chain.landed :: tx.tuple == t then Largest(w.chain.landed, t, paid) else paid == 0)
            && (forall id <- w.cells :: t in w.cells[id].records && w.cells[id].records[t].state == Collected ==>
                  w.cells[id].records[t].value <= Amount(w.chain.collected, t) == paid)
  {
    SettleRunKeepsInv(threshold, steps);
    var w := SettleExec(NewWorld(threshold), steps);
    forall id <- w.cells ensures CellOnChain(w.cells[id], w.chain.collected) {
    }
  }

  /** What one tuple was paid is within the record, and so the voucher, of some session in a reachable
      state. A session with records on several tuples may be paid on each of them. */
  lemma PaidWithinVoucher(threshold: nat, steps: seq<SettleStep>, t: Tuple) returns (id: SessionId)
    requires Amount(SettleExec(NewWorld(threshold), steps).chain.paid, t) > 0
    ensures var w := SettleExec(NewWorld(threshold), steps);
            && id in w.cells && Reachable(w.cells[id]) && w.cells[id].session.Some?
            && t in w.cells[id].records
            && Amount(w.chain.paid, t) <= w.cells[id].records[t].value <= RavValue(w.cells[id].session.value)
  {
    SettleRunKeepsInv(threshold, steps);
    var w := SettleExec(NewWorld(threshold), steps);
    var tx :| tx in w.chain.landed && tx.tuple == t && tx.value == w.chain.collected[t];
    assert Backed(w.cells, tx);
    id := tx.session;
    ReachableInv(w.cells[id]);
  }

  predicate AllCollected(cells: map<SessionId, Cell>, t: Tuple) {
    forall id <- cells :: t in cells[id].records ==> cells[id].records[t].state == Collected
  }

  /** When every session's record on a tuple is marked collected, the amount paid is the largest of
      their values. The tuple does not name the session, so sessions that share one are paid the
      maximum of their vouchers and not the sum. */
  lemma SharedTuplePaysLargest(threshold: nat, steps: seq<SettleStep>, t: Tuple, one: SessionId)
    requires var w := SettleExec(NewWorld(threshold), steps);
             AllCollected(w.cells, t) && one in w.cells && t in w.cells[one].records
    ensures var w := SettleExec(NewWorld(threshold), steps);
            var paid := Amount(w.chain.paid, t);
            && (forall id <- w.cells :: t in w.cells[id].records ==> w.cells[id].records[t].value <= paid)
            && (exists id <- w.cells :: t in w.cells[id].records && w.cells[id].records[t].value == paid)
  {
    var w := SettleExec(NewWorld(threshold), steps);
    SettleRunKeepsInv(threshold, steps);
    forall id <- w.cells ensures CellOnChain(w.cells[id], w.chain.collected) {
    }
    if Amount(w.chain.paid, t) > 0 {
      var id := PaidWithinVoucher(threshold, steps, t);
      assert w.cells[id].records[t].value == Amount(w.chain.paid, t);
    } else {
      assert w.cells[one].records[t].value == 0;
    }
  }
}
