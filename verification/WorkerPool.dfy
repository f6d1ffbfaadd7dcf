/** The plugin's session pool: workers borrowed under a session are returned when it is released,
    however `GetWorker`, `ReleaseWorker` and `Release` interleave.

    A step is one access to the shared maps, one section under a session's mutex, or one remote call.
    Keys handed out by the provider are fresh. */
module WorkerPool {
  type Key = string

  // ---- The shared objects ----

  class SessionInfo {
    var workers: set<Key>
    var released: bool

    constructor ()
      ensures workers == {} && !released
    {
      workers, released := {}, false;
    }

    /** The first caller gets the workers to return; later callers get nothing to do. */
    method BeginRelease() returns (toRelease: set<Key>, ok: bool)
      modifies this
      ensures ok == !old(released) && released && workers == old(workers)
      ensures toRelease == if ok then workers else {}
    {
      if released {
        return {}, false;
      }
      released := true;
      toRelease, ok := workers, true;
    }

    method AddWorker(worker: Key) returns (ok: bool)
      modifies this
      ensures ok == !old(released) && released == old(released)
      ensures workers == if ok then old(workers) + {worker} else old(workers)
    {
      if released {
        return false;
      }
      workers := workers + {worker};
      ok := true;
    }
  }

  class SessionPool {
    var sessions: map<Key, SessionInfo>
    /** Every return sent to the provider. */
    ghost var returned: multiset<Key>

    constructor ()
      ensures sessions == map[] && returned == multiset{}
    {
      sessions, returned := map[], multiset{};
    }

    method ReturnWorker(worker: Key)
      modifies this`returned
      ensures returned == old(returned) + multiset{worker}
    {
      returned := returned + multiset{worker};
    }

    /** `Release`, uninterrupted: the session's workers go back once each, then its own slot. */
    method Release(session: Key)
      modifies this, if session in sessions then {sessions[session]} else {}
      ensures session in old(sessions) && !old(sessions[session].released) ==>
                && old(sessions)[session].released
                && sessions == old(sessions) - {session}
                && returned == old(returned) + multiset(old(sessions[session].workers)) + multiset{session}
      ensures session !in old(sessions) || old(sessions[session].released) ==>
                sessions == old(sessions) && returned == old(returned)
    {
      if session !in sessions {
        return;
      }
      var info := sessions[session];
      var workers, ok := info.BeginRelease();
      if !ok {
        return;
      }
      sessions := sessions - {session};
      var left := workers;
      while left != {}
        invariant left <= workers && sessions == old(sessions) - {session} && info.released
        invariant returned == old(returned) + multiset(workers - left)
        decreases |left|
      {
        var w :| w in left;
        ReturnWorker(w);
        left := left - {w};
        assert multiset(workers - left) == multiset(workers - left - {w}) + multiset{w};
      }
      assert workers - left == workers;
      ReturnWorker(session);
    }
  }

  // ---- Interleavings ----

  datatype Info = Info(workers: set<Key>, released: bool)

  /** A `GetWorker` call: before borrowing, with a worker in hand, and about to record it. */
  datatype Getter = Looking(session: Key) | Holding(session: Key, worker: Key) | Recording(session: Key, worker: Key)

  /** A `Release` goroutine: found the session, took its workers, returning them. */
  datatype Releaser =
    | Found(session: Key)
    | Closing(session: Key, left: set<Key>)
    | Returning(session: Key, left: set<Key>)

  /** Who borrowed a worker, and under which session. */
  datatype Loan = Loan(session: Key, caller: nat)

  /** `pending` are returns handed to a goroutine and `slots` counts the returns of each session's own
      slot. `loans` has every worker ever borrowed and `owner` the goroutine that released a session:
      both are history. */
  datatype Pool = Pool(
    sessions: set<Key>,
    infos: map<Key, Info>,
    getters: map<nat, Getter>,
    releasers: map<nat, Releaser>,
    pending: multiset<Key>,
    returned: set<Key>,
    slots: multiset<Key>,
    loans: map<Key, Loan>,
    owner: map<Key, nat>)

  datatype PoolStep =
    | Open(session: Key)
    | GetLookup(caller: nat, session: Key)
    | GetBorrow(caller: nat, worker: Key)
    | GetFail(caller: nat)
    | GetRelookup(caller: nat)
    | GetRecord(caller: nat)
    | DropWorker(worker: Key)
    | ReleaseLookup(caller: nat, session: Key)
    | ReleaseBegin(caller: nat)
    | ReleaseDelete(caller: nat)
    | ReleaseReturn(caller: nat, worker: Key)
    | ReleaseFinish(caller: nat)
    | Deliver(worker: Key)

  const EMPTY := Pool({}, map[], map[], map[], multiset{}, {}, multiset{}, map[], map[])

  predicate Idle(p: Pool, caller: nat) {
    caller !in p.getters && caller !in p.releasers
  }

  function DoOpen(p: Pool, k: Key): Pool {
    if k in p.infos then p
    else p.(sessions := p.sessions + {k}, infos := p.infos[k := Info({}, false)])
  }

  function DoGetLookup(p: Pool, caller: nat, k: Key): Pool {
    if !Idle(p, caller) || k !in p.sessions then p else p.(getters := p.getters[caller := Looking(k)])
  }

  function DoGetBorrow(p: Pool, caller: nat, w: Key): Pool {
    if caller !in p.getters || !p.getters[caller].Looking? || w in p.loans then p
    else
      var k := p.getters[caller].session;
      p.(getters := p.getters[caller := Holding(k, w)], loans := p.loans[w := Loan(k, caller)])
  }

  function DoGetFail(p: Pool, caller: nat): Pool {
    if caller !in p.getters || !p.getters[caller].Looking? then p else p.(getters := p.getters - {caller})
  }

  /** The call ends with its worker on the way back. */
  function HandBack(p: Pool, caller: nat, w: Key): Pool {
    p.(getters := p.getters - {caller}, pending := p.pending + multiset{w})
  }

  function DoGetRelookup(p: Pool, caller: nat): Pool {
    if caller !in p.getters || !p.getters[caller].Holding? then p
    else
      var g := p.getters[caller];
      if g.session in p.sessions then p.(getters := p.getters[caller := Recording(g.session, g.worker)])
      else HandBack(p, caller, g.worker)
  }

  function DoGetRecord(p: Pool, caller: nat): Pool {
    if caller !in p.getters || !p.getters[caller].Recording? || p.getters[caller].session !in p.infos then p
    else
      var g := p.getters[caller];
      var info := p.infos[g.session];
      if info.released then HandBack(p, caller, g.worker)
      else p.(getters := p.getters - {caller},
              infos := p.infos[g.session := info.(workers := info.workers + {g.worker})])
  }

  /** `ReleaseWorker` forgets the worker in every session still listed. */
  function DoDrop(p: Pool, w: Key): Pool {
    var infos := map k | k in p.infos ::
      if k in p.sessions then p.infos[k].(workers := p.infos[k].workers - {w}) else p.infos[k];
    p.(infos := infos, pending := p.pending + multiset{w})
  }

  function DoReleaseLookup(p: Pool, caller: nat, k: Key): Pool {
    if !Idle(p, caller) || k !in p.sessions then p else p.(releasers := p.releasers[caller := Found(k)])
  }

  function DoReleaseBegin(p: Pool, caller: nat): Pool {
    if caller !in p.releasers || !p.releasers[caller].Found? || p.releasers[caller].session !in p.infos then p
    else
      var k := p.releasers[caller].session;
      if p.infos[k].released then p.(releasers := p.releasers - {caller})
      else p.(releasers := p.releasers[caller := Closing(k, p.infos[k].workers)],
              infos := p.infos[k := p.infos[k].(released := true)],
              owner := p.owner[k := caller])
  }

  function DoReleaseDelete(p: Pool, caller: nat): Pool {
    if caller !in p.releasers || !p.releasers[caller].Closing? then p
    else
      var r := p.releasers[caller];
      p.(sessions := p.sessions - {r.session}, releasers := p.releasers[caller := Returning(r.session, r.left)])
  }

  function DoReleaseReturn(p: Pool, caller: nat, w: Key): Pool {
    if caller !in p.releasers || !p.releasers[caller].Returning? || w !in p.releasers[caller].left then p
    else
      var r := p.releasers[caller];
      p.(releasers := p.releasers[caller := Returning(r.session, r.left - {w})], returned := p.returned + {w})
  }

  function DoReleaseFinish(p: Pool, caller: nat): Pool {
    if caller !in p.releasers || !p.releasers[caller].Returning? || p.releasers[caller].left != {} then p
    else p.(releasers := p.releasers - {caller}, slots := p.slots + multiset{p.releasers[caller].session})
  }

  function DoDeliver(p: Pool, w: Key): Pool {
    if w !in p.pending then p else p.(pending := p.pending - multiset{w}, returned := p.returned + {w})
  }

  function PoolNext(p: Pool, step: PoolStep): Pool {
    match step
    case Open(k) => DoOpen(p, k)
    case GetLookup(caller, k) => DoGetLookup(p, caller, k)
    case GetBorrow(caller, w) => DoGetBorrow(p, caller, w)
    case GetFail(caller) => DoGetFail(p, caller)
    case GetRelookup(caller) => DoGetRelookup(p, caller)
    case GetRecord(caller) => DoGetRecord(p, caller)
    case DropWorker(w) => DoDrop(p, w)
    case ReleaseLookup(caller, k) => DoReleaseLookup(p, caller, k)
    case ReleaseBegin(caller) => DoReleaseBegin(p, caller)
    case ReleaseDelete(caller) => DoReleaseDelete(p, caller)
    case ReleaseReturn(caller, w) => DoReleaseReturn(p, caller, w)
    case ReleaseFinish(caller) => DoReleaseFinish(p, caller)
    case Deliver(w) => DoDeliver(p, w)
  }

  function PoolExec(p: Pool, steps: seq<PoolStep>): Pool {
    if steps == [] then p else PoolNext(PoolExec(p, steps[..|steps| - 1]), steps[|steps| - 1])
  }

  // ---- The invariant ----

  predicate Active(r: Releaser) {
    r.Closing? || r.Returning?
  }

  /** The goroutine that released the session is still returning its workers. */
  predicate Releasing(releasers: map<nat, Releaser>, owner: map<Key, nat>, k: Key) {
    k in owner && owner[k] in releasers && Active(releasers[owner[k]]) && releasers[owner[k]].session == k
  }

  /** The call that borrowed the worker still has it. */
  predicate InHand(getters: map<nat, Getter>, loan: Loan, w: Key) {
    loan.caller in getters && !getters[loan.caller].Looking? && getters[loan.caller].worker == w
  }

  predicate ToReturn(releasers: map<nat, Releaser>, owner: map<Key, nat>, k: Key, w: Key) {
    Releasing(releasers, owner, k) && w in releasers[owner[k]].left
  }

  predicate Tracked(infos: map<Key, Info>, k: Key, w: Key) {
    k in infos && !infos[k].released && w in infos[k].workers
  }

  /** Somebody knows about the worker and will return it. */
  predicate Accounted(p: Pool, w: Key, loan: Loan) {
    || w in p.returned || w in p.pending
    || InHand(p.getters, loan, w)
    || Tracked(p.infos, loan.session, w)
    || ToReturn(p.releasers, p.owner, loan.session, w)
  }

  /** Calls and goroutines work on sessions that exist. */
  predicate Known(infos: map<Key, Info>, sessions: set<Key>, getters: map<nat, Getter>, releasers: map<nat, Releaser>,
                  loans: map<Key, Loan>)
  {
    && (forall k <- sessions :: k in infos)
    && (forall t <- getters :: getters[t].session in infos)
    && (forall t <- getters :: !getters[t].Looking? ==>
          getters[t].worker in loans && loans[getters[t].worker] == Loan(getters[t].session, t))
    && (forall t <- releasers :: releasers[t].session in infos)
  }

  /** A session is released once: by its owner, which then returns its slot. */
  predicate SlotInv(infos: map<Key, Info>, sessions: set<Key>, releasers: map<nat, Releaser>, owner: map<Key, nat>,
                    slots: multiset<Key>)
  {
    && (forall k <- infos :: !infos[k].released ==> k in sessions && k !in owner)
    && (forall k <- infos :: infos[k].released ==> (k in slots || Releasing(releasers, owner, k)))
    && (forall k <- owner :: k in infos)
    && (forall k <- slots :: k in owner && slots[k] == 1 && !Releasing(releasers, owner, k))
    && (forall t <- releasers :: Active(releasers[t]) ==>
          releasers[t].session in owner && owner[releasers[t].session] == t)
  }

  predicate AllKnown(p: Pool) {
    Known(p.infos, p.sessions, p.getters, p.releasers, p.loans)
  }

  predicate SlotsHold(p: Pool) {
    SlotInv(p.infos, p.sessions, p.releasers, p.owner, p.slots)
  }

  predicate PoolInv(p: Pool) {
    && AllKnown(p)
    && SlotsHold(p)
    && (forall w <- p.loans :: Accounted(p, w, p.loans[w]))
  }

  predicate Getting(step: PoolStep) {
    step.GetLookup? || step.GetBorrow? || step.GetFail? || step.GetRelookup? || step.GetRecord?
  }

  predicate Freeing(step: PoolStep) {
    step.ReleaseLookup? || step.ReleaseBegin? || step.ReleaseDelete? || step.ReleaseReturn? || step.ReleaseFinish?
  }

  lemma GettingKeepsKnown(p: Pool, step: PoolStep)
    requires AllKnown(p) && Getting(step)
    ensures AllKnown(PoolNext(p, step))
  {
  }

  lemma FreeingKeepsKnown(p: Pool, step: PoolStep)
    requires AllKnown(p) && Freeing(step)
    ensures AllKnown(PoolNext(p, step))
  {
  }

  lemma StepKeepsKnown(p: Pool, step: PoolStep)
    requires AllKnown(p)
    ensures AllKnown(PoolNext(p, step))
  {
    if Getting(step) {
      GettingKeepsKnown(p, step);
    } else if Freeing(step) {
      FreeingKeepsKnown(p, step);
    }
  }

  // ---- Slots ----

  lemma OpenKeepsSlots(p: Pool, k: Key)
    requires AllKnown(p) && SlotsHold(p)
    ensures SlotsHold(DoOpen(p, k))
  {
  }

  lemma GetRecordKeepsSlots(p: Pool, caller: nat)
    requires AllKnown(p) && SlotsHold(p)
    ensures SlotsHold(DoGetRecord(p, caller))
  {
  }

  lemma DropKeepsSlots(p: Pool, w: Key)
    requires AllKnown(p) && SlotsHold(p)
    ensures SlotsHold(DoDrop(p, w))
  {
  }

  lemma ReleaseLookupKeepsSlots(p: Pool, caller: nat, k: Key)
    requires AllKnown(p) && SlotsHold(p)
    ensures SlotsHold(DoReleaseLookup(p, caller, k))
  {
  }

  lemma ClaimKeepsSlots(infos: map<Key, Info>, sessions: set<Key>, releasers: map<nat, Releaser>,
                        owner: map<Key, nat>, slots: multiset<Key>,
                        caller: nat, k: Key, r: Releaser)
    requires SlotInv(infos, sessions, releasers, owner, slots)
    requires k in infos && !infos[k].released && r.Closing? && r.session == k
    requires caller in releasers && !Active(releasers[caller])
    ensures SlotInv(infos[k := infos[k].(released := true)], sessions, releasers[caller := r], owner[k := caller],
                    slots)
  {
    var infos', releasers', owner' := infos[k := infos[k].(released := true)], releasers[caller := r],
                                      owner[k := caller];
    assert Releasing(releasers', owner', k);
    forall j <- infos' | j != k ensures Releasing(releasers', owner', j) <==> Releasing(releasers, owner, j) {
    }
  }

  lemma ReleaseBeginKeepsSlots(p: Pool, caller: nat)
    requires AllKnown(p) && SlotsHold(p)
    ensures SlotsHold(DoReleaseBegin(p, caller))
  {
    if caller in p.releasers && p.releasers[caller].Found? && p.releasers[caller].session in p.infos {
      var k := p.releasers[caller].session;
      if !p.infos[k].released {
        ClaimKeepsSlots(p.infos, p.sessions, p.releasers, p.owner, p.slots, caller, k, Closing(k, p.infos[k].workers));
      }
    }
  }

  lemma ReleaseDeleteKeepsSlots(p: Pool, caller: nat)
    requires AllKnown(p) && SlotsHold(p)
    ensures SlotsHold(DoReleaseDelete(p, caller))
  {
  }

  lemma ReleaseReturnKeepsSlots(p: Pool, caller: nat, w: Key)
    requires AllKnown(p) && SlotsHold(p)
    ensures SlotsHold(DoReleaseReturn(p, caller, w))
  {
  }

  lemma ReleaseFinishKeepsSlots(p: Pool, caller: nat)
    requires AllKnown(p) && SlotsHold(p)
    ensures SlotsHold(DoReleaseFinish(p, caller))
  {
  }

  lemma StepKeepsSlots(p: Pool, step: PoolStep)
    requires AllKnown(p) && SlotsHold(p)
    ensures SlotsHold(PoolNext(p, step))
  {
    match step
    case Open(k) => OpenKeepsSlots(p, k);
    case GetRecord(caller) => GetRecordKeepsSlots(p, caller);
    case DropWorker(w) => DropKeepsSlots(p, w);
    case ReleaseLookup(caller, k) => ReleaseLookupKeepsSlots(p, caller, k);
    case ReleaseBegin(caller) => ReleaseBeginKeepsSlots(p, caller);
    case ReleaseDelete(caller) => ReleaseDeleteKeepsSlots(p, caller);
    case ReleaseReturn(caller, w) => ReleaseReturnKeepsSlots(p, caller, w);
    case ReleaseFinish(caller) => ReleaseFinishKeepsSlots(p, caller);
    case _ =>
  }

  // ---- Accounting ----

  lemma RecordKeepsAccount(p: Pool, caller: nat, w: Key)
    requires w in p.loans && Accounted(p, w, p.loans[w])
    requires InHand(p.getters, p.loans[w], w) ==> p.getters[p.loans[w].caller].session == p.loans[w].session
    ensures var p' := DoGetRecord(p, caller);
            p'.loans == p.loans && Accounted(p', w, p.loans[w])
  {
  }

  lemma GettingKeepsAccount(p: Pool, step: PoolStep, w: Key)
    requires Getting(step) && !step.GetRecord? && w in p.loans && Accounted(p, w, p.loans[w])
    ensures var p' := PoolNext(p, step);
            w in p'.loans && p'.loans[w] == p.loans[w] && Accounted(p', w, p.loans[w])
  {
  }

  lemma FreeingKeepsAccount(p: Pool, step: PoolStep, w: Key)
    requires Freeing(step) && w in p.loans && Accounted(p, w, p.loans[w])
    requires var k := p.loans[w].session;
             k in p.infos && !p.infos[k].released ==> k !in p.owner
    ensures var p' := PoolNext(p, step);
            p'.loans == p.loans && Accounted(p', w, p.loans[w])
  {
  }

  lemma OtherKeepsAccount(p: Pool, step: PoolStep, w: Key)
    requires !Getting(step) && !Freeing(step) && w in p.loans && Accounted(p, w, p.loans[w])
    ensures var p' := PoolNext(p, step);
            p'.loans == p.loans && Accounted(p', w, p.loans[w])
  {
  }

  lemma StepKeepsAccount(p: Pool, step: PoolStep, w: Key)
    requires AllKnown(p) && SlotsHold(p) && w in p.loans && Accounted(p, w, p.loans[w])
    ensures var p' := PoolNext(p, step);
            w in p'.loans && p'.loans[w] == p.loans[w] && Accounted(p', w, p.loans[w])
  {
    if step.GetRecord? {
      RecordKeepsAccount(p, step.caller, w);
    } else if Getting(step) {
      GettingKeepsAccount(p, step, w);
    } else if Freeing(step) {
      FreeingKeepsAccount(p, step, w);
    } else {
      OtherKeepsAccount(p, step, w);
    }
  }

  lemma BorrowIsInHand(p: Pool, step: PoolStep, w: Key)
    requires w !in p.loans && w in PoolNext(p, step).loans
    ensures Accounted(PoolNext(p, step), w, PoolNext(p, step).loans[w])
  {
  }

  lemma PoolStepKeepsInv(p: Pool, step: PoolStep)
    requires PoolInv(p)
    ensures PoolInv(PoolNext(p, step))
  {
    StepKeepsKnown(p, step);
    StepKeepsSlots(p, step);
    var p' := PoolNext(p, step);
    forall w <- p'.loans ensures Accounted(p', w, p'.loans[w]) {
      if w in p.loans {
        StepKeepsAccount(p, step, w);
      } else {
        BorrowIsInHand(p, step, w);
      }
    }
  }

  lemma {:induction false} PoolRunKeepsInv(steps: seq<PoolStep>)
    ensures PoolInv(PoolExec(EMPTY, steps))
  {
    if steps != [] {
      PoolRunKeepsInv(steps[..|steps| - 1]);
      PoolStepKeepsInv(PoolExec(EMPTY, steps[..|steps| - 1]), steps[|steps| - 1]);
    }
  }

  // ---- What every run guarantees ----

  /** A session's slot is returned at most once, exactly once after its release finishes. Once it is,
      every worker ever borrowed under the session has been returned, or its return is already under
      way, or it is in the hands of a `GetWorker` call that has not ended. */
  lemma {:induction false} NoWorkerLeak(steps: seq<PoolStep>, k: Key)
    ensures var p := PoolExec(EMPTY, steps);
            && p.slots[k] <= 1
            && (k in p.infos && p.infos[k].released && !Releasing(p.releasers, p.owner, k) ==> p.slots[k] == 1)
            && (k in p.slots ==> forall w <- p.loans :: p.loans[w].session == k ==>
                  w in p.returned || w in p.pending || InHand(p.getters, p.loans[w], w))
  {
    PoolRunKeepsInv(steps);
    var p := PoolExec(EMPTY, steps);
    forall w <- p.loans | k in p.slots && p.loans[w].session == k
      ensures w in p.returned || w in p.pending || InHand(p.getters, p.loans[w], w)
    {
      assert Accounted(p, w, p.loans[w]);
    }
  }

  /** With no call in flight, a released session has all its workers returned. */
  lemma {:induction false} AllReturnedAtRest(steps: seq<PoolStep>, k: Key)
    requires var p := PoolExec(EMPTY, steps);
             p.getters == map[] && p.pending == multiset{} && k in p.slots
    ensures var p := PoolExec(EMPTY, steps);
            forall w <- p.loans :: p.loans[w].session == k ==> w in p.returned
  {
    NoWorkerLeak(steps, k);
  }

  lemma LateStepHandsBack(p: Pool, caller: nat)
    requires caller in p.getters && !p.getters[caller].Looking?
    requires p.getters[caller].session in p.infos && p.infos[p.getters[caller].session].released
    ensures var w := p.getters[caller].worker;
            var p' := if p.getters[caller].Holding? then DoGetRelookup(p, caller) else DoGetRecord(p, caller);
            && p'.infos == p.infos
            && (p' == HandBack(p, caller, w) ||
                (caller in p'.getters && p'.getters[caller] == Recording(p.getters[caller].session, w)))
            && (p.getters[caller].Recording? ==> p' == HandBack(p, caller, w))
  {
  }

  /** A `GetWorker` call that borrowed for a session released meanwhile hands its worker back: its
      remaining steps cannot record it. */
  lemma LateBorrowIsReturned(steps: seq<PoolStep>, caller: nat)
    requires var p := PoolExec(EMPTY, steps);
             && caller in p.getters && !p.getters[caller].Looking?
             && p.getters[caller].session in p.infos && p.infos[p.getters[caller].session].released
    ensures var p := PoolExec(EMPTY, steps);
            var w := p.getters[caller].worker;
            var p1 := DoGetRelookup(p, caller);
            var p2 := DoGetRecord(p1, caller);
            caller !in p2.getters && w in p2.pending && p2.infos == p.infos
  {
    var p := PoolExec(EMPTY, steps);
    LateStepHandsBack(p, caller);
    var p1 := DoGetRelookup(p, caller);
    if caller in p1.getters {
      LateStepHandsBack(p1, caller);
    }
  }
}
