/** The in-memory repository: sessions and settlement records, changed by field-scoped updates.
    Each compare-and-swap loop of the original is one atomic update here. */
module Repository {
  import opened Basics
  import opened Ledger
  import opened Collections

  datatype CollectionKey = CollectionKey(sessionId: SessionId, tuple: Tuple)

  /** The original joins session and tuple into one map key; here the table is nested by session. */
  type Records = map<SessionId, map<Tuple, Record>>

  function RecordsOf(records: Records, id: SessionId): map<Tuple, Record> {
    if id in records then records[id] else map[]
  }

  /** Only the records of session `id` may differ. */
  ghost predicate OtherRecordsKept(records: Records, records': Records, id: SessionId) {
    forall other :: other != id ==> RecordsOf(records', other) == RecordsOf(records, other)
  }

  predicate Stored(records: Records, key: CollectionKey, state: CollectionState) {
    key.tuple in RecordsOf(records, key.sessionId) && RecordsOf(records, key.sessionId)[key.tuple].state == state
  }

  predicate Distinct(keys: seq<CollectionKey>) {
    forall i, j :: 0 <= i < j < |keys| ==> keys[i] != keys[j]
  }

  class InMemoryRepository {
    var sessions: map<SessionId, Session>
    var records: Records

    constructor ()
      ensures sessions == map[] && records == map[]
    {
      sessions, records := map[], map[];
    }

    function Session(id: SessionId): Option<Session>
      reads this
    {
      if id in sessions then Some(sessions[id]) else None
    }

    function RecordsFor(id: SessionId): map<Tuple, Record>
      reads this
    {
      RecordsOf(records, id)
    }

    method SessionCreate(id: SessionId, session: Session, now: nat) returns (created: bool)
      modifies this
      ensures var outcome := match session.rav
                             case None => None
                             case Some(r) =>
                               Some(NextCollectible(Lookup(old(RecordsFor(id)), r.message.tuple), r, now));
              && created == (old(id !in sessions) && !(outcome.Some? && outcome.value.Err?))
              && sessions == (if created then old(sessions)[id := session] else old(sessions))
              && RecordsFor(id) == (if created && outcome.Some?
                                    then Store(old(RecordsFor(id)), session.rav.value.message.tuple, outcome.value)
                                    else old(RecordsFor(id)))
      ensures !created ==> records == old(records)
      ensures OtherRecordsKept(old(records), records, id)
    {
      var next: Option<Record> := None;
      if session.rav.Some? {
        var rav := session.rav.value;
        var outcome := CollectionNextCollectible(id, rav, now);
        match outcome {
          case Err(_) => return false;
          case Ok(record) => next := Some(record);
        }
      }
      if id in sessions {
        return false;
      }
      sessions := sessions[id := session];
      if next.Some? {
        records := records[id := RecordsFor(id)[session.rav.value.message.tuple := next.value]];
      }
      created := true;
    }

    method SessionTouch(id: SessionId, at: nat) returns (found: bool)
      modifies this`sessions
      ensures found == (id in old(sessions))
      ensures sessions == if found then old(sessions)[id := Touch(old(sessions)[id], at)] else old(sessions)
    {
      found := id in sessions;
      if found {
        sessions := sessions[id := Touch(sessions[id], at)];
      }
    }

    method SessionUpdateRuntimeState(id: SessionId, life: Lifecycle, updatedAt: nat) returns (found: bool)
      modifies this`sessions
      ensures found == (id in old(sessions))
      ensures sessions == if found then old(sessions)[id := UpdateLifecycle(old(sessions)[id], life, updatedAt)]
                          else old(sessions)
    {
      found := id in sessions;
      if found {
        var next := sessions[id];
        if next.life.status != Terminated {
          next := next.(life := life);
          if updatedAt > next.updatedAt {
            next := next.(updatedAt := updatedAt);
          }
        }
        sessions := sessions[id := next];
      }
    }

    method SessionApplyUsage(id: SessionId, delta: Counters, cost: nat, now: nat) returns (found: bool)
      modifies this`sessions
      ensures found == (id in old(sessions))
      ensures sessions == if found then old(sessions)[id := AddUsage(old(sessions)[id], delta, cost, now)]
                          else old(sessions)
    {
      found := id in sessions;
      if found {
        sessions := sessions[id := AddUsage(sessions[id], delta, cost, now)];
      }
    }

    method CollectionNextCollectible(id: SessionId, rav: SignedRav, now: nat) returns (outcome: Outcome)
      ensures outcome == NextCollectible(Lookup(RecordsFor(id), rav.message.tuple), rav, now)
    {
      var mine := RecordsFor(id);
      var made := NewRecord(rav, now);
      if rav.message.tuple !in mine {
        return Ok(made);
      }
      var current := mine[rav.message.tuple];
      if current.state == CollectPending {
        if current.value == made.value {
          return Ok(current);
        }
        return Err(PendingConflict);
      }
      if current.state == Collected {
        if current.value == made.value {
          return Ok(current);
        }
        if made.value < current.value {
          return Err(StaleCollected);
        }
      }
      outcome := Ok(made.(createdAt := current.createdAt));
    }

    method SessionUpdateRavAndBaseline(id: SessionId, rav: SignedRav, baseline: Counters, baselineCost: nat, now: nat)
      returns (error: Option<CollectionError>)
      modifies this
      ensures var outcome := NextCollectible(Lookup(old(RecordsFor(id)), rav.message.tuple), rav, now);
              && error == (if outcome.Err? then Some(outcome.error)
                           else if id !in old(sessions) then Some(NotFound) else None)
              && sessions == (if error.Some? then old(sessions)
                              else old(sessions)[id := CommitRav(old(sessions)[id], rav, baseline, baselineCost, now)])
              && RecordsFor(id) == (if error.Some? then old(RecordsFor(id))
                                    else Store(old(RecordsFor(id)), rav.message.tuple, outcome))
      ensures OtherRecordsKept(old(records), records, id)
    {
      var outcome := CollectionNextCollectible(id, rav, now);
      if outcome.Err? {
        return Some(outcome.error);
      }
      if id !in sessions {
        return Some(NotFound);
      }
      sessions := sessions[id := CommitRav(sessions[id], rav, baseline, baselineCost, now)];
      records := records[id := RecordsFor(id)[rav.message.tuple := outcome.value]];
      error := None;
    }

    /** `updateCollection` with one of the three mark transitions. */
    method UpdateCollection(key: CollectionKey, apply: Record -> Outcome) returns (outcome: Outcome)
      modifies this`records
      ensures var t, before := key.tuple, old(RecordsFor(key.sessionId));
              && outcome == (if t in before then apply(before[t]) else Err(NotFound))
              && RecordsFor(key.sessionId) == (if t in before then Store(before, t, outcome) else before)
      ensures OtherRecordsKept(old(records), records, key.sessionId)
    {
      var mine := RecordsFor(key.sessionId);
      if key.tuple !in mine {
        return Err(NotFound);
      }
      outcome := apply(mine[key.tuple]);
      if outcome.Ok? {
        records := records[key.sessionId := mine[key.tuple := outcome.value]];
      }
    }

    /** `CollectionList` filtered by state: every matching record once, in some order. */
    method CollectionList(state: CollectionState) returns (keys: seq<CollectionKey>)
      ensures Distinct(keys)
      ensures forall key :: key in keys <==> Stored(records, key, state)
    {
      keys := [];
      var left := records.Keys;
      while left != {}
        invariant left <= records.Keys && Distinct(keys)
        invariant forall key :: key in keys <==> Stored(records, key, state) && key.sessionId !in left
        decreases |left|
      {
        var id :| id in left;
        var mine := ListSession(id, state);
        keys, left := keys + mine, left - {id};
      }
    }

    method ListSession(id: SessionId, state: CollectionState) returns (keys: seq<CollectionKey>)
      ensures Distinct(keys)
      ensures forall key :: key in keys <==> Stored(records, key, state) && key.sessionId == id
    {
      keys := [];
      var mine := RecordsFor(id);
      var left := mine.Keys;
      while left != {}
        invariant left <= mine.Keys && Distinct(keys)
        invariant forall key :: key in keys <==>
                    Stored(records, key, state) && key.sessionId == id && key.tuple !in left
        decreases |left|
      {
        var t :| t in left;
        left := left - {t};
        if mine[t].state == state {
          keys := keys + [CollectionKey(id, t)];
        }
      }
    }
  }
}
