/** The collector as a part of settlement: every sweep, however it fails, is a settlement run; and runs
    that show what settlement does when keys are not one to a session. */
module CollectorRuns {
  import opened Basics
  import opened Ledger
  import opened Collections
  import opened Protocol
  import opened SettlementKeys
  import opened Settlement
  import opened Collector

  // ---- A sweep is a settlement run ----

  lemma RunStep(w: World, steps: seq<SettleStep>, step: SettleStep)
    ensures SettleExec(w, steps + [step]) == SettleNext(SettleExec(w, steps), step)
  {
    assert (steps + [step])[..|steps|] == steps;
  }

  /** Every listing is a record its session held at some point. */
  predicate AllSeen(cells: map<SessionId, Cell>, ls: seq<Listing>) {
    forall l <- ls :: l.tuple == l.record.rav.message.tuple && Seen(cells, l.session, l.record)
  }

  lemma ListFirst(w: World, l: Listing, now: nat)
    requires Seen(w.cells, l.session, l.record) && l.tuple == l.record.rav.message.tuple
    ensures var k, listed := w.nextAttempt, DoList(w, l.session, l.record);
            var w' := DoMarkAttempt(listed, k, now);
            && w'.cells == MarkedIn(w.cells, w.threshold, l, r => MarkPending(r, l.record.value, "", now))
            && w'.threshold == w.threshold
            && (CanMark(w.cells, w.threshold, l, now) ==>
                  k in w'.attempts && w'.attempts[k] == Attempt(l.session, l.record, Marked))
  {
  }

  lemma GiveUpMarks(w: World, k: nat, l: Listing, hash: string, error: string, now: nat)
    requires k in w.attempts && w.attempts[k] == Attempt(l.session, l.record, Marked)
    requires l.tuple == l.record.rav.message.tuple
    ensures var w' := DoGiveUp(w, k, hash, error, now);
            && w'.cells == MarkedIn(w.cells, w.threshold, l, r => MarkRetryable(r, l.record.value, hash, error, now))
            && w'.threshold == w.threshold
  {
  }

  /** Sending and mining change no record. */
  lemma LandedRuns(w: World, steps: seq<SettleStep>, k: nat) returns (all: seq<SettleStep>)
    ensures steps <= all
    ensures var v := SettleExec(w, steps);
            && SettleExec(w, all) == DoLand(DoBroadcast(v, k), k, true)
            && SettleExec(w, all).cells == v.cells && SettleExec(w, all).threshold == v.threshold
  {
    var sent := steps + [Broadcast(k)];
    RunStep(w, steps, Broadcast(k));
    all := sent + [Land(k, true)];
    RunStep(w, sent, Land(k, true));
  }

  lemma ConfirmMarks(w: World, k: nat, l: Listing, hash: string, now: nat)
    requires k in w.attempts && w.attempts[k] == Attempt(l.session, l.record, Marked)
    requires l.tuple == l.record.rav.message.tuple
    ensures var w' := DoConfirm(DoLand(DoBroadcast(w, k), k, true), k, hash, now);
            && w'.cells == MarkedIn(w.cells, w.threshold, l, r => MarkCollected(r, l.record.value, hash, None, now))
            && w'.threshold == w.threshold
  {
    var landed := DoLand(DoBroadcast(w, k), k, true);
    assert k in landed.succeeded && landed.attempts[k] == Attempt(l.session, l.record, Sent);
  }

  /** Listing and marking, as two steps of the run. */
  lemma MarkRuns(w: World, steps: seq<SettleStep>, l: Listing, now: nat) returns (all: seq<SettleStep>)
    ensures steps <= all
    ensures var v := SettleExec(w, steps);
            SettleExec(w, all) == DoMarkAttempt(DoList(v, l.session, l.record), v.nextAttempt, now)
  {
    var k := SettleExec(w, steps).nextAttempt;
    var listed := steps + [List(l.session, l.record)];
    RunStep(w, steps, List(l.session, l.record));
    all := listed + [MarkAttempt(k, now)];
    RunStep(w, listed, MarkAttempt(k, now));
  }

  /** Ending a marked attempt with the outcome of its transaction. */
  lemma OutcomeRuns(w: World, steps: seq<SettleStep>, k: nat, l: Listing, plan: Plan, now: nat)
    returns (all: seq<SettleStep>)
    requires var v := SettleExec(w, steps);
             && k in v.attempts && v.attempts[k] == Attempt(l.session, l.record, Marked)
             && l.tuple == l.record.rav.message.tuple
    ensures steps <= all
    ensures var v, v' := SettleExec(w, steps), SettleExec(w, all);
            v'.threshold == v.threshold && v'.cells == Concluded(v.cells, v.threshold, l, plan, now)
  {
    var v := SettleExec(w, steps);
    match plan.outcome
    case Failed(hash, error) =>
      all := steps;
      if !plan.conclude.LostBefore? {
        GiveUpMarks(v, k, l, hash, error, now);
        RunStep(w, steps, GiveUp(k, hash, error, now));
        all := steps + [GiveUp(k, hash, error, now)];
      }
    case Succeeded(hash) =>
      all := LandedRuns(w, steps, k);
      if !plan.conclude.LostBefore? {
        ConfirmMarks(v, k, l, hash, now);
        RunStep(w, all, Confirm(k, hash, now));
        all := all + [Confirm(k, hash, now)];
      }
  }

  lemma ServedRuns(w: World, steps: seq<SettleStep>, cfg: Config, l: Listing, plan: Plan, now: nat)
    returns (all: seq<SettleStep>)
    requires Seen(SettleExec(w, steps).cells, l.session, l.record) && l.tuple == l.record.rav.message.tuple
    requires Sound(cfg, l) && plan.mark.Served?
    ensures steps <= all
    ensures var v, v' := SettleExec(w, steps), SettleExec(w, all);
            v'.threshold == v.threshold && v'.cells == CollectedOne(v.cells, v.threshold, cfg, l, plan, now)
  {
    var v := SettleExec(w, steps);
    ListFirst(v, l, now);
    all := MarkRuns(w, steps, l, now);
    if CanMark(v.cells, v.threshold, l, now) {
      all := OutcomeRuns(w, all, v.nextAttempt, l, plan, now);
    }
  }

  /** `collectOne` is an attempt of a settlement run, whichever of its calls are lost. */
  lemma CollectOneRuns(w: World, steps: seq<SettleStep>, cfg: Config, l: Listing, plan: Plan, now: nat)
    returns (all: seq<SettleStep>)
    requires AllSeen(SettleExec(w, steps).cells, [l])
    ensures steps <= all
    ensures var v, v' := SettleExec(w, steps), SettleExec(w, all);
            v'.threshold == v.threshold && v'.cells == CollectedOne(v.cells, v.threshold, cfg, l, plan, now)
  {
    assert l in [l];
    all := steps;
    if Sound(cfg, l) {
      match plan.mark
      case LostBefore =>
      case LostAfter =>
        var mark := Local(l.session, OpMarkPending(l.tuple, l.record.value, "", now));
        RunStep(w, steps, mark);
        all := steps + [mark];
      case Served =>
        all := ServedRuns(w, steps, cfg, l, plan, now);
    }
  }

  lemma {:induction false} SeenInRun(w: World, steps: seq<SettleStep>, more: seq<SettleStep>, ls: seq<Listing>)
    requires WorldInv(w) && steps <= more && AllSeen(SettleExec(w, steps).cells, ls)
    ensures WorldInv(SettleExec(w, more)) && AllSeen(SettleExec(w, more).cells, ls)
    decreases |more|
  {
    SettleFromKeepsInv(w, more);
    if steps < more {
      var n := |more| - 1;
      SeenInRun(w, steps, more[..n], ls);
      forall l <- ls ensures Seen(SettleExec(w, more).cells, l.session, l.record) {
        SeenStep(SettleExec(w, more[..n]), more[n], l.session, l.record);
      }
    } else {
      assert steps == more;
    }
  }

  lemma {:induction false} CollectAllRuns(w: World, steps: seq<SettleStep>, cfg: Config, ls: seq<Listing>,
                                          plans: nat -> Plan, now: nat)
    returns (all: seq<SettleStep>)
    requires WorldInv(w) && AllSeen(SettleExec(w, steps).cells, ls)
    ensures steps <= all
    ensures var v, v' := SettleExec(w, steps), SettleExec(w, all);
            v'.threshold == v.threshold && v'.cells == CollectedAll(v.cells, v.threshold, cfg, ls, plans, now)
  {
    all := steps;
    if ls != [] {
      var n := |ls| - 1;
      var some := CollectAllRuns(w, steps, cfg, ls[..n], plans, now);
      SeenInRun(w, steps, some, ls);
      assert ls[n] in ls;
      all := CollectOneRuns(w, some, cfg, ls[n], plans(n), now);
    }
  }

  lemma {:induction false} ReclaimAllRuns(w: World, steps: seq<SettleStep>, cfg: Config, ls: seq<Listing>,
                                          fates: nat -> Fate, now: nat)
    returns (all: seq<SettleStep>)
    ensures steps <= all
    ensures var v, v' := SettleExec(w, steps), SettleExec(w, all);
            v'.threshold == v.threshold && v'.cells == ReclaimedAll(v.cells, v.threshold, cfg, ls, fates, now)
  {
    all := steps;
    if ls != [] {
      var n := |ls| - 1;
      var l := ls[n];
      all := ReclaimAllRuns(w, steps, cfg, ls[..n], fates, now);
      if ShouldReclaim(cfg, l.record, now) && !fates(n).LostBefore? {
        var mark := Local(l.session, OpMarkRetryable(l.tuple, l.record.value, l.record.lastTxHash, "reclaimed", now));
        RunStep(w, all, mark);
        all := all + [mark];
      }
    }
  }

  lemma {:induction false} EligibleListed(cfg: Config, ls: seq<Listing>, now: nat)
    ensures forall l <- Eligible(cfg, ls, now) :: l in ls && ShouldCollect(cfg, l.record, now)
  {
    if ls != [] {
      EligibleListed(cfg, ls[..|ls| - 1], now);
    }
  }

  /** A whole sweep, from listings of any age and whatever fails in it, is a run of the settlement
      system: everything proved of such runs holds after it. */
  lemma {:induction false} SweepRuns(w: World, cfg: Config, listed: seq<Listing>, pending: seq<Listing>,
                                     weather: Weather, now: nat)
    returns (steps: seq<SettleStep>)
    requires WorldInv(w) && AllSeen(w.cells, listed)
    ensures SettleExec(w, steps).cells == Swept(w.cells, w.threshold, cfg, listed, pending, weather, now)
    ensures WorldInv(SettleExec(w, steps))
  {
    var eligible := Eligible(cfg, listed, now);
    EligibleListed(cfg, listed, now);
    var tried := UpTo(eligible, weather.cancelled);
    assert forall l <- tried :: l in eligible;
    steps := CollectAllRuns(w, [], cfg, tried, weather.plans, now);
    if eligible != [] && weather.cancelled >= |eligible| {
      steps := ReclaimAllRuns(w, steps, cfg, UpTo(pending, weather.reclaimCancelled), weather.reclaims, now);
    }
    SettleFromKeepsInv(w, steps);
  }

  lemma FreshIsSeen(w: World, ls: seq<Listing>)
    requires WorldInv(w) && Fresh(w.cells, ls)
    ensures AllSeen(w.cells, ls)
  {
    forall l <- ls ensures l.tuple == l.record.rav.message.tuple && Seen(w.cells, l.session, l.record) {
      assert IsCurrent(w.cells, l);
      ListedIsSeen(w, l.session, l.tuple);
    }
  }

  /** The sweep the collector makes, from what the operator lists at its start. */
  lemma {:induction false} FreshSweepRuns(w: World, cfg: Config, listed: seq<Listing>, pending: seq<Listing>,
                                          weather: Weather, now: nat)
    returns (steps: seq<SettleStep>)
    requires WorldInv(w) && Fresh(w.cells, listed)
    ensures SettleExec(w, steps).cells == Swept(w.cells, w.threshold, cfg, listed, pending, weather, now)
    ensures WorldInv(SettleExec(w, steps))
  {
    FreshIsSeen(w, listed);
    steps := SweepRuns(w, cfg, listed, pending, weather, now);
  }

  // ---- Runs that pay too much and too little ----

  const SMOOTH := Plan(Served, Succeeded(""), Served)

  /** Collecting a collectible record, with nothing failing, marks it collected and touches nothing else. */
  lemma SmoothCollects(cells: map<SessionId, Cell>, threshold: nat, cfg: Config, l: Listing, now: nat)
    requires IsCurrent(cells, l) && Sound(cfg, l)
    ensures var c := cells[l.session];
            var collected := l.record.(state := Collected, attempts := l.record.attempts + 1, lastTxHash := "",
                                       lastError := "", collectedAmount := None, updatedAt := now);
            CollectedOne(cells, threshold, cfg, l, SMOOTH, now) ==
              cells[l.session := c.(records := c.records[l.tuple := collected])]
  {
    var c, r := cells[l.session], l.record;
    var marked := MarkPending(r, r.value, "", now).value;
    var collected := MarkCollected(marked, r.value, "", None, now).value;
    var c1 := c.(records := c.records[l.tuple := marked]);
    assert MarkedIn(cells, threshold, l, x => MarkPending(x, r.value, "", now)) == cells[l.session := c1];
    assert c1.records[l.tuple := collected] == c.records[l.tuple := collected];
    var c2 := c.(records := c.records[l.tuple := collected]);
    assert DoMark(c1, l.tuple, x => MarkCollected(x, r.value, "", None, now)) == c2;
    assert cells[l.session := c1][l.session := c2] == cells[l.session := c2];
  }

  /** The settlement run that collects a current record. */
  lemma CollectCurrent(threshold: nat, steps: seq<SettleStep>, l: Listing, now: nat) returns (all: seq<SettleStep>)
    requires IsCurrent(SettleExec(NewWorld(threshold), steps).cells, l) && l.record.state == Collectible
    ensures var v, v' := SettleExec(NewWorld(threshold), steps), SettleExec(NewWorld(threshold), all);
            && v'.cells.Keys == v.cells.Keys
            && (forall id <- v.cells :: id != l.session ==> v'.cells[id] == v.cells[id])
            && var c, c' := v.cells[l.session], v'.cells[l.session];
               && c'.session == c.session && c'.records.Keys == c.records.Keys
               && (forall t <- c.records :: t != l.tuple ==> c'.records[t] == c.records[t])
               && c'.records[l.tuple].state == Collected && c'.records[l.tuple].value == l.record.value
  {
    var w := NewWorld(threshold);
    var v := SettleExec(w, steps);
    var cfg := Config(l.tuple.serviceProvider, l.tuple.dataService, 0, 1, 0, 0);
    SettleRunKeepsInv(threshold, steps);
    FreshIsSeen(v, [l]);
    assert l in [l];
    all := CollectOneRuns(w, steps, cfg, l, SMOOTH, now);
    SmoothCollects(v.cells, v.threshold, cfg, l, now);
  }

  /** A session opened by a voucher, as two worlds see it. */
  lemma OpenSession(threshold: nat, steps: seq<SettleStep>, id: SessionId, rav: SignedRav)
    returns (all: seq<SettleStep>)
    requires id !in SettleExec(NewWorld(threshold), steps).cells
    ensures var v, v' := SettleExec(NewWorld(threshold), steps), SettleExec(NewWorld(threshold), all);
            && id in v'.cells && v'.cells.Keys == v.cells.Keys + {id}
            && (forall other <- v.cells :: v'.cells[other] == v.cells[other])
            && v'.cells[id].records == map[rav.message.tuple := NewRecord(rav, 1)]
            && v'.cells[id].session.Some? && RavValue(v'.cells[id].session.value) == rav.message.value
  {
    var t := rav.message.tuple;
    var start := Local(id, Start(t.payer, t.serviceProvider, t.dataService, Some(rav), 1));
    RunStep(NewWorld(threshold), steps, start);
    all := steps + [start];
    var records: map<Tuple, Record> := map[];
    assert records[t := NewRecord(rav, 1)] == map[t := NewRecord(rav, 1)];
  }

  lemma TwoSessionsOpened(one: SessionId, two: SessionId, a: SignedRav, b: SignedRav) returns (steps: seq<SettleStep>)
    requires one != two
    ensures var w := SettleExec(NewWorld(1), steps);
            && w.cells.Keys == {one, two}
            && w.cells[one].records == map[a.message.tuple := NewRecord(a, 1)]
            && w.cells[two].records == map[b.message.tuple := NewRecord(b, 1)]
  {
    assert SettleExec(NewWorld(1), []).cells == map[];
    steps := OpenSession(1, [], one, a);
    steps := OpenSession(1, steps, two, b);
  }

  /** Two sessions with vouchers of 3 and 5 on one tuple, both marked collected: 5 is paid, not 8. */
  lemma SharedTupleShortfall(one: SessionId, two: SessionId, a: SignedRav, b: SignedRav)
    returns (steps: seq<SettleStep>)
    requires one != two && a.message.tuple == b.message.tuple && a.message.value == 3 && b.message.value == 5
    ensures var w := SettleExec(NewWorld(1), steps);
            var t := a.message.tuple;
            && w.cells.Keys == {one, two} && AllCollected(w.cells, t)
            && w.cells[one].records.Keys == w.cells[two].records.Keys == {t}
            && w.cells[one].records[t].value == 3 && w.cells[two].records[t].value == 5
            && Amount(w.chain.paid, t) == 5
  {
    var t := a.message.tuple;
    steps := TwoSessionsOpened(one, two, a, b);
    steps := CollectCurrent(1, steps, Listing(one, t, NewRecord(a, 1)), 2);
    steps := CollectCurrent(1, steps, Listing(two, t, NewRecord(b, 1)), 3);
    SharedTuplePaysLargest(1, steps, t, one);
  }

  /** One session with a voucher of 5 and nothing metered, filed under two keys: each key pays 5. */
  lemma TwoKeysPayTwice(a: SignedRav, b: SignedRav) returns (steps: seq<SettleStep>)
    requires a.message.value == b.message.value == 5 && a.message.tuple != b.message.tuple
    requires a.message.tuple.payer == b.message.tuple.payer
    requires a.message.tuple.serviceProvider == b.message.tuple.serviceProvider
    ensures var w := SettleExec(NewWorld(1), steps);
            && w.cells.Keys == {"a"} && w.cells["a"].session.Some?
            && RavValue(w.cells["a"].session.value) == 5 && w.cells["a"].session.value.totalCost == 0
            && Amount(w.chain.paid, a.message.tuple) == 5 && Amount(w.chain.paid, b.message.tuple) == 5
  {
    steps := TwoKeysFiled(a, b);
    steps := CollectCurrent(1, steps, Listing("a", a.message.tuple, NewRecord(a, 1)), 3);
    steps := CollectCurrent(1, steps, Listing("a", b.message.tuple, NewRecord(b, 2)), 4);
    SharedTuplePaysLargest(1, steps, a.message.tuple, "a");
    SharedTuplePaysLargest(1, steps, b.message.tuple, "a");
  }

  lemma TwoKeysFiled(a: SignedRav, b: SignedRav) returns (steps: seq<SettleStep>)
    requires a.message.value == b.message.value == 5 && a.message.tuple != b.message.tuple
    requires a.message.tuple.payer == b.message.tuple.payer
    requires a.message.tuple.serviceProvider == b.message.tuple.serviceProvider
    ensures var w := SettleExec(NewWorld(1), steps);
            && w.cells.Keys == {"a"} && w.cells["a"].session.Some?
            && RavValue(w.cells["a"].session.value) == 5 && w.cells["a"].session.value.totalCost == 0
            && w.cells["a"].records == map[a.message.tuple := NewRecord(a, 1), b.message.tuple := NewRecord(b, 2)]
  {
    var c, run := TwoKeysOneVoucher(a, b);
    var first, second := Local("a", run[0]), Local("a", run[1]);
    steps := [first] + [second];
    assert SettleExec(NewWorld(1), []) == NewWorld(1);
    assert [] + [first] == [first];
    RunStep(NewWorld(1), [], first);
    RunStep(NewWorld(1), [first], second);
    assert run[..1] == [run[0]] && run[..1][..0] == [];
    assert Exec(Init(1), run[..1]) == Next(Init(1), run[0]);
  }
}
