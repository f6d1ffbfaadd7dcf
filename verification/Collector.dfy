/** The collect daemon: one sweep lists eligible records, attempts each, and hands stale pending
    records back for another try. Transaction results, the fate of each call and the clock are inputs. */
module Collector {
  import opened Basics
  import opened Ledger
  import opened Collections
  import opened Protocol
  import opened Repository
  import opened Gateway

  const U32: nat := 0x1_0000_0000
  const LIST_LIMIT: nat := 500
  const MAX_BACKOFF: nat := 3_600_000_000_000

  datatype Listing = Listing(session: SessionId, tuple: Tuple, record: Record)

  datatype TxOutcome = Succeeded(hash: string) | Failed(hash: string, error: string)

  /** An operator call answers, or ends in an error before or after the server acted on it. */
  datatype Fate = Served | LostBefore | LostAfter

  /** What happens to one attempt: its two calls and its transaction. */
  datatype Plan = Plan(mark: Fate, outcome: TxOutcome, conclude: Fate)

  /** What happens to one sweep: whether its listings answer, the fate of each attempt and reclaim, and
      before which record the collector notices that it was cancelled. */
  datatype Weather = Weather(
    listed: bool,
    plans: nat -> Plan,
    cancelled: nat,
    pendingListed: bool,
    reclaims: nat -> Fate,
    reclaimCancelled: nat)

  datatype Config = Config(
    provider: Address,
    dataService: Address,
    minValue: nat,
    maxAttempts: nat,
    backoffBase: nat,
    reclaimAfter: int)

  function Doubled(base: nat, times: nat): nat {
    if times == 0 then base else 2 * Doubled(base, times - 1)
  }

  /** Exponential backoff: the base doubled once per further attempt. The cap applies from the second
      attempt on. */
  function Backoff(base: nat, attempt: nat): nat {
    if attempt == 0 then 0
    else if attempt > 1 && Doubled(base, attempt - 1) >= MAX_BACKOFF then MAX_BACKOFF
    else Doubled(base, attempt - 1)
  }

  lemma {:induction false} DoubledGrows(base: nat, times: nat, more: nat)
    requires times <= more
    ensures Doubled(base, times) <= Doubled(base, more)
  {
    if times < more {
      DoubledGrows(base, times, more - 1);
    }
  }

  /** Waits never shrink from one attempt to the next unless the configured base itself exceeds the cap. */
  lemma BackoffGrows(base: nat, attempt: nat, later: nat)
    requires attempt <= later
    ensures later > 1 ==> Backoff(base, later) <= MAX_BACKOFF
    ensures base <= MAX_BACKOFF ==> Backoff(base, attempt) <= Backoff(base, later)
  {
    if attempt > 0 {
      DoubledGrows(base, attempt - 1, later - 1);
    }
  }

  method BackoffFor(base: nat, attempt: nat) returns (backoff: nat)
    ensures backoff == Backoff(base, attempt)
  {
    if attempt < 1 {
      return 0;
    }
    backoff := base;
    var i := 1;
    while i < attempt
      invariant 1 <= i <= attempt
      invariant backoff == Doubled(base, i - 1)
      invariant i > 1 ==> backoff < MAX_BACKOFF
    {
      backoff := backoff * 2;
      if backoff >= MAX_BACKOFF {
        DoubledGrows(base, i, attempt - 1);
        return MAX_BACKOFF;
      }
      i := i + 1;
    }
  }

  /** The attempt count is compared in 32 bits. */
  predicate ShouldCollect(cfg: Config, r: Record, now: int) {
    && r.value >= cfg.minValue
    && (r.state == CollectFailedRetryable ==>
          r.attempts % U32 < cfg.maxAttempts && now - r.updatedAt >= Backoff(cfg.backoffBase, r.attempts))
  }

  predicate ShouldReclaim(cfg: Config, r: Record, now: int) {
    cfg.reclaimAfter > 0 && r.state == CollectPending && now - r.updatedAt >= cfg.reclaimAfter
  }

  predicate MayCollect(l: Listing) {
    l.record.state == Collectible || l.record.state == CollectFailedRetryable
  }

  /** `validateProviderCollectRecord`. */
  predicate Sound(cfg: Config, l: Listing) {
    && MayCollect(l)
    && l.record.value == l.record.rav.message.value
    && l.record.rav.message.tuple == l.tuple
    && l.tuple.serviceProvider == cfg.provider
    && l.tuple.dataService == cfg.dataService
  }

  // ---- What a sweep does to the sessions ----

  function MarkedIn(cells: map<SessionId, Cell>, threshold: nat, l: Listing, mark: Record -> Outcome)
    : map<SessionId, Cell>
  {
    cells[l.session := DoMark(CellIn(cells, threshold, l.session), l.tuple, mark)]
  }

  /** A mark reaches the repository unless the call was lost on the way. */
  function Reached(cells: map<SessionId, Cell>, threshold: nat, l: Listing, mark: Record -> Outcome, fate: Fate)
    : map<SessionId, Cell>
  {
    if fate.LostBefore? then cells else MarkedIn(cells, threshold, l, mark)
  }

  predicate CanMark(cells: map<SessionId, Cell>, threshold: nat, l: Listing, now: nat) {
    var records := CellIn(cells, threshold, l.session).records;
    l.tuple in records && MarkPending(records[l.tuple], l.record.value, "", now).Ok?
  }

  function Concluded(cells: map<SessionId, Cell>, threshold: nat, l: Listing, plan: Plan, now: nat)
    : map<SessionId, Cell>
  {
    match plan.outcome
    case Failed(hash, error) =>
      Reached(cells, threshold, l, r => MarkRetryable(r, l.record.value, hash, error, now), plan.conclude)
    case Succeeded(hash) =>
      Reached(cells, threshold, l, r => MarkCollected(r, l.record.value, hash, None, now), plan.conclude)
  }

  /** Nothing is sent unless the first mark was seen to succeed. */
  function CollectedOne(cells: map<SessionId, Cell>, threshold: nat, cfg: Config, l: Listing, plan: Plan, now: nat)
    : map<SessionId, Cell>
  {
    if !Sound(cfg, l) then cells
    else
      var marked := Reached(cells, threshold, l, r => MarkPending(r, l.record.value, "", now), plan.mark);
      if !plan.mark.Served? || !CanMark(cells, threshold, l, now) then marked
      else Concluded(marked, threshold, l, plan, now)
  }

  function CollectedAll(cells: map<SessionId, Cell>, threshold: nat, cfg: Config, ls: seq<Listing>,
                        plans: nat -> Plan, now: nat)
    : map<SessionId, Cell>
  {
    if ls == [] then cells
    else
      var n := |ls| - 1;
      CollectedOne(CollectedAll(cells, threshold, cfg, ls[..n], plans, now), threshold, cfg, ls[n], plans(n), now)
  }

  function ReclaimedOne(cells: map<SessionId, Cell>, threshold: nat, cfg: Config, l: Listing, fate: Fate, now: nat)
    : map<SessionId, Cell>
  {
    if !ShouldReclaim(cfg, l.record, now) then cells
    else Reached(cells, threshold, l,
                 r => MarkRetryable(r, l.record.value, l.record.lastTxHash, "reclaimed", now), fate)
  }

  function ReclaimedAll(cells: map<SessionId, Cell>, threshold: nat, cfg: Config, ls: seq<Listing>,
                        fates: nat -> Fate, now: nat)
    : map<SessionId, Cell>
  {
    if ls == [] then cells
    else
      var n := |ls| - 1;
      ReclaimedOne(ReclaimedAll(cells, threshold, cfg, ls[..n], fates, now), threshold, cfg, ls[n], fates(n), now)
  }

  function Eligible(cfg: Config, ls: seq<Listing>, now: nat): seq<Listing> {
    if ls == [] then []
    else
      var rest, last := Eligible(cfg, ls[..|ls| - 1], now), ls[|ls| - 1];
      if ShouldCollect(cfg, last.record, now) then rest + [last] else rest
  }

  function UpTo(ls: seq<Listing>, n: nat): seq<Listing> {
    if n < |ls| then ls[..n] else ls
  }

  /** With nothing eligible, or once cancelled, a sweep ends before it reclaims. */
  function Swept(cells: map<SessionId, Cell>, threshold: nat, cfg: Config, listed: seq<Listing>, pending: seq<Listing>,
                 weather: Weather, now: nat): map<SessionId, Cell>
  {
    var eligible := Eligible(cfg, listed, now);
    var collected := CollectedAll(cells, threshold, cfg, UpTo(eligible, weather.cancelled), weather.plans, now);
    if eligible == [] || weather.cancelled < |eligible| then collected
    else ReclaimedAll(collected, threshold, cfg, UpTo(pending, weather.reclaimCancelled), weather.reclaims, now)
  }

  /** The listing is what the sessions hold now. */
  predicate Fresh(cells: map<SessionId, Cell>, ls: seq<Listing>) {
    forall l <- ls :: IsCurrent(cells, l)
  }

  predicate IsCurrent(cells: map<SessionId, Cell>, l: Listing) {
    && l.session in cells && l.tuple in cells[l.session].records
    && cells[l.session].records[l.tuple] == l.record
  }

  class AutoCollector {
    const gateway: PaymentGateway
    const cfg: Config

    constructor (gateway: PaymentGateway, cfg: Config)
      ensures this.gateway == gateway && this.cfg == cfg
    {
      this.gateway, this.cfg := gateway, cfg;
    }

    method ShouldCollectNow(r: Record, now: nat) returns (ok: bool)
      ensures ok == ShouldCollect(cfg, r, now)
    {
      if r.value < cfg.minValue {
        return false;
      }
      if r.state == CollectFailedRetryable {
        if r.attempts % U32 >= cfg.maxAttempts {
          return false;
        }
        var wait := BackoffFor(cfg.backoffBase, r.attempts);
        if now - r.updatedAt < wait {
          return false;
        }
      }
      ok := true;
    }

    /** The operator's listing of one state: current records, each once, all of them up to the limit. */
    method ListCollections(state: CollectionState) returns (ls: seq<Listing>)
      requires gateway.Valid()
      ensures |ls| <= LIST_LIMIT && Fresh(gateway.cells, ls) && forall l <- ls :: l.record.state == state
      ensures forall i, j :: 0 <= i < j < |ls| ==> (ls[i].session, ls[i].tuple) != (ls[j].session, ls[j].tuple)
      ensures |ls| < LIST_LIMIT ==>
                forall l: Listing :: IsCurrent(gateway.cells, l) && l.record.state == state ==> l in ls
    {
      var keys := gateway.repo.CollectionList(state);
      ls := [];
      var i := 0;
      while i < |keys| && |ls| < LIST_LIMIT
        invariant 0 <= i <= |keys| && |ls| == i <= LIST_LIMIT
        invariant forall j :: 0 <= j < i ==> keys[j] == CollectionKey(ls[j].session, ls[j].tuple)
        invariant forall l <- ls :: IsCurrent(gateway.cells, l) && l.record.state == state
      {
        var key := keys[i];
        assert Stored(gateway.repo.records, key, state);
        gateway.RecordsAreCurrent(key.sessionId);
        ls := ls + [Listing(key.sessionId, key.tuple, gateway.repo.RecordsFor(key.sessionId)[key.tuple])];
        i := i + 1;
      }
      if |ls| < LIST_LIMIT {
        forall l: Listing | IsCurrent(gateway.cells, l) && l.record.state == state ensures l in ls {
          gateway.RecordsAreCurrent(l.session);
          assert Stored(gateway.repo.records, CollectionKey(l.session, l.tuple), state);
          var j :| 0 <= j < |keys| && keys[j] == CollectionKey(l.session, l.tuple);
          assert ls[j] in ls && ls[j] == l;
        }
      }
    }

    /** Both states that may be collected; a listing that fails ends the sweep. */
    method ListEligible(weather: Weather, now: nat) returns (eligible: Option<seq<Listing>>, ghost listed: seq<Listing>)
      requires gateway.Valid()
      ensures Fresh(gateway.cells, listed)
      ensures forall l <- listed :: MayCollect(l)
      ensures |listed| < LIST_LIMIT ==>
                forall l: Listing :: IsCurrent(gateway.cells, l) && MayCollect(l) ==> l in listed
      ensures eligible == if weather.listed then Some(Eligible(cfg, listed, now)) else None
    {
      var collectible := ListCollections(Collectible);
      var retryable := ListCollections(CollectFailedRetryable);
      listed := collectible + retryable;
      if !weather.listed {
        return None, listed;
      }
      var all := collectible + retryable;
      var kept := [];
      for i := 0 to |all|
        invariant kept == Eligible(cfg, all[..i], now)
      {
        assert all[..i + 1][..i] == all[..i];
        var ok := ShouldCollectNow(all[i].record, now);
        if ok {
          kept := kept + [all[i]];
        }
      }
      assert all[..|all|] == all;
      eligible := Some(kept);
    }

    /** An operator mark: the new state, and what the caller gets to see. */
    method Mark(l: Listing, mark: Record -> Outcome, fate: Fate) returns (ok: bool)
      requires gateway.Valid()
      modifies gateway`cells, gateway.repo
      ensures gateway.Valid()
      ensures gateway.cells == Reached(old(gateway.cells), gateway.threshold, l, mark, fate)
      ensures var records := old(CellIn(gateway.cells, gateway.threshold, l.session)).records;
              ok == (fate.Served? && l.tuple in records && mark(records[l.tuple]).Ok?)
    {
      if fate.LostBefore? {
        return false;
      }
      var outcome := gateway.MarkCollection(CollectionKey(l.session, l.tuple), mark);
      ok := fate.Served? && outcome.Ok?;
    }

    method CollectOne(l: Listing, plan: Plan, now: nat)
      requires gateway.Valid()
      modifies gateway`cells, gateway.repo
      ensures gateway.Valid()
      ensures gateway.cells == CollectedOne(old(gateway.cells), gateway.threshold, cfg, l, plan, now)
    {
      if !Sound(cfg, l) {
        return;
      }
      var marked := Mark(l, r => MarkPending(r, l.record.value, "", now), plan.mark);
      if !marked {
        return;
      }
      match plan.outcome {
        case Failed(hash, error) =>
          var _ := Mark(l, r => MarkRetryable(r, l.record.value, hash, error, now), plan.conclude);
        case Succeeded(hash) =>
          var _ := Mark(l, r => MarkCollected(r, l.record.value, hash, None, now), plan.conclude);
      }
    }

    method ReclaimStalePending(weather: Weather, now: nat) returns (ghost pending: seq<Listing>)
      requires gateway.Valid()
      modifies gateway`cells, gateway.repo
      ensures gateway.Valid()
      ensures Fresh(old(gateway.cells), pending) && forall l <- pending :: l.record.state == CollectPending
      ensures gateway.cells == ReclaimedAll(old(gateway.cells), gateway.threshold, cfg,
                                            UpTo(pending, weather.reclaimCancelled), weather.reclaims, now)
    {
      pending := [];
      if cfg.reclaimAfter <= 0 || !weather.pendingListed {
        return;
      }
      var listed := ListCollections(CollectPending);
      pending := listed;
      for i := 0 to |listed|
        invariant gateway.Valid() && i <= weather.reclaimCancelled
        invariant gateway.cells == ReclaimedAll(old(gateway.cells), gateway.threshold, cfg, listed[..i],
                                                weather.reclaims, now)
      {
        if i == weather.reclaimCancelled {
          return;
        }
        var l := listed[i];
        assert listed[..i + 1][..i] == listed[..i];
        if ShouldReclaim(cfg, l.record, now) {
          var _ := Mark(l, r => MarkRetryable(r, l.record.value, l.record.lastTxHash, "reclaimed", now),
                        weather.reclaims(i));
        }
      }
      assert listed[..|listed|] == listed;
    }

    /** One sweep, whatever fails or is cancelled on the way. */
    method Sweep(weather: Weather, now: nat) returns (ghost listed: seq<Listing>, ghost pending: seq<Listing>)
      requires gateway.Valid()
      modifies gateway`cells, gateway.repo
      ensures gateway.Valid() && Fresh(old(gateway.cells), listed)
      ensures forall l <- listed :: MayCollect(l)
      ensures forall l <- pending :: l.record.state == CollectPending
      ensures gateway.cells == if !weather.listed then old(gateway.cells)
                               else Swept(old(gateway.cells), gateway.threshold, cfg, listed, pending, weather, now)
    {
      pending := [];
      var eligible;
      eligible, listed := ListEligible(weather, now);
      if eligible.None? || |eligible.value| == 0 {
        return;
      }
      var ls := eligible.value;
      for i := 0 to |ls|
        invariant gateway.Valid() && i <= weather.cancelled
        invariant gateway.cells == CollectedAll(old(gateway.cells), gateway.threshold, cfg, ls[..i], weather.plans, now)
      {
        if i == weather.cancelled {
          return;
        }
        assert ls[..i + 1][..i] == ls[..i];
        CollectOne(ls[i], weather.plans(i), now);
      }
      assert ls[..|ls|] == ls;
      pending := ReclaimStalePending(weather, now);
    }
  }
}
