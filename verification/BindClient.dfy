/** The consumer's payment-session client: one stream, bound to one session, shared by any number of
    callers. Sends happen outside the mutex, so a caller comes back to a client that may have been
    closed, re-pointed or bound by others; the generation counter is how it can tell.

    One step is one section under the mutex. */
module BindClient {
  import opened Basics

  /** Streams and done channels are named by fresh numbers. `closed` counts how often each done
      channel was closed. */
  datatype Client = Client(
    endpoint: string,
    stream: Option<nat>,
    sendMu: Option<nat>,
    bound: SessionId,
    binding: SessionId,
    done: Option<nat>,
    generation: nat,
    nextId: nat,
    closed: multiset<nat>)

  /** What a bind attempt remembers while it sends. */
  datatype Ticket = Ticket(session: SessionId, stream: nat, generation: nat, done: nat)

  datatype BindEntry =
    | AlreadyBound
    | AwaitBind(done: Option<nat>)
    | BoundElsewhere
    | BindingElsewhere
    | Begun(ticket: Ticket)

  /** `Unmatched` is the fall-through of the switch, which would lock a mutex already held. */
  datatype SendEntry =
    | AwaitSend(done: Option<nat>)
    | NotBound
    | BoundToOther
    | Sending(stream: nat, generation: nat)
    | Unmatched

  function NewClient(endpoint: string): Client {
    Client(endpoint, None, None, "", "", None, 0, 0, multiset{})
  }

  function FinishBinding(c: Client): Client {
    if c.done.None? then c else c.(closed := c.closed + multiset{c.done.value}, done := None)
  }

  function CloseLocked(c: Client): Client {
    FinishBinding(c.(generation := c.generation + 1, stream := None, sendMu := None, bound := "", binding := ""))
  }

  function Retarget(c: Client, endpoint: string): Client {
    if endpoint == "" || endpoint == c.endpoint then c else CloseLocked(c).(endpoint := endpoint)
  }

  function EnsureStream(c: Client): (c': Client)
    ensures c'.stream.Some?
  {
    if c.stream.Some? then c
    else c.(stream := Some(c.nextId), sendMu := Some(c.nextId), nextId := c.nextId + 1)
  }

  function EnsureDone(c: Client): (c': Client)
    ensures c'.done.Some?
  {
    if c.done.Some? then c else c.(done := Some(c.nextId), nextId := c.nextId + 1)
  }

  /** The first section of `BindSession`. */
  function EnterBind(c: Client, session: SessionId): (Client, BindEntry) {
    if c.bound == session && c.stream.Some? then (c, AlreadyBound)
    else if c.binding == session then (c, AwaitBind(c.done))
    else if c.bound != "" && c.bound != session then (c, BoundElsewhere)
    else if c.binding != "" && c.binding != session then (c, BindingElsewhere)
    else
      var ready := EnsureDone(EnsureStream(c));
      (ready.(binding := session),
       Begun(Ticket(session, EnsureStream(c).stream.value, ready.generation, ready.done.value)))
  }

  predicate SameStream(c: Client, t: Ticket) {
    c.stream == Some(t.stream) && c.generation == t.generation
  }

  predicate AttemptActive(c: Client, t: Ticket) {
    c.done == Some(t.done) && c.binding == t.session
  }

  /** The second section of `BindSession`, after the send succeeded or failed. */
  function FinishBind(c: Client, t: Ticket, ok: bool): (Client, bool) {
    if ok then
      if SameStream(c, t) && AttemptActive(c, t) then (FinishBinding(c.(bound := t.session, binding := "")), true)
      else if AttemptActive(c, t) then (FinishBinding(c.(binding := "")), false)
      else (c, false)
    else
      if SameStream(c, t) && AttemptActive(c, t) then (CloseLocked(c), false)
      else if AttemptActive(c, t) then (FinishBinding(c.(binding := "")), false)
      else (c, false)
  }

  /** The first section of `SendRAVSubmission`. */
  function EnterSend(c: Client, session: SessionId): SendEntry {
    if c.bound == session && c.stream.Some? then Sending(c.stream.value, c.generation)
    else if c.binding == session then AwaitSend(c.done)
    else if c.bound == "" then NotBound
    else if c.bound != session then BoundToOther
    else Unmatched
  }

  function FinishSend(c: Client, stream: nat, generation: nat, ok: bool): Client {
    if !ok && c.stream == Some(stream) && c.generation == generation then CloseLocked(c) else c
  }

  // ---- The client object ----

  class PaymentSessionClient {
    var endpoint: string
    var stream: Option<nat>
    var sendMu: Option<nat>
    var boundSessionId: SessionId
    var bindingSessionId: SessionId
    var bindingDone: Option<nat>
    var streamGeneration: nat
    var nextId: nat
    ghost var closed: multiset<nat>

    ghost function State(): Client
      reads this
    {
      Client(endpoint, stream, sendMu, boundSessionId, bindingSessionId, bindingDone, streamGeneration, nextId, closed)
    }

    constructor (endpoint: string)
      ensures State() == NewClient(endpoint)
    {
      this.endpoint := endpoint;
      stream, sendMu, bindingDone := None, None, None;
      boundSessionId, bindingSessionId := "", "";
      streamGeneration, nextId, closed := 0, 0, multiset{};
    }

    method FinishBindingLocked()
      modifies this
      ensures State() == FinishBinding(old(State()))
    {
      if bindingDone.None? {
        return;
      }
      closed := closed + multiset{bindingDone.value};
      bindingDone := None;
    }

    method CloseStreamLocked()
      modifies this
      ensures State() == CloseLocked(old(State()))
    {
      streamGeneration := streamGeneration + 1;
      stream := None;
      sendMu := None;
      boundSessionId := "";
      bindingSessionId := "";
      FinishBindingLocked();
    }

    method SetEndpoint(providerEndpoint: string)
      modifies this
      ensures State() == Retarget(old(State()), providerEndpoint)
    {
      if providerEndpoint == "" || endpoint == providerEndpoint {
        return;
      }
      CloseStreamLocked();
      endpoint := providerEndpoint;
    }

    method EnsureStreamLocked() returns (s: nat)
      modifies this
      ensures State() == EnsureStream(old(State())) && stream == Some(s)
    {
      if stream.Some? {
        return stream.value;
      }
      s := nextId;
      stream, sendMu, nextId := Some(s), Some(s), nextId + 1;
    }

    method BeginBind(session: SessionId) returns (entry: BindEntry)
      modifies this
      ensures (State(), entry) == EnterBind(old(State()), session)
    {
      if boundSessionId == session && stream.Some? {
        return AlreadyBound;
      }
      if bindingSessionId == session {
        return AwaitBind(bindingDone);
      }
      if boundSessionId != "" && boundSessionId != session {
        return BoundElsewhere;
      }
      if bindingSessionId != "" && bindingSessionId != session {
        return BindingElsewhere;
      }
      var s := EnsureStreamLocked();
      if bindingDone.None? {
        bindingDone, nextId := Some(nextId), nextId + 1;
      }
      bindingSessionId := session;
      entry := Begun(Ticket(session, s, streamGeneration, bindingDone.value));
    }

    method EndBind(t: Ticket, ok: bool) returns (success: bool)
      modifies this
      ensures (State(), success) == FinishBind(old(State()), t, ok)
    {
      var sameStream := stream == Some(t.stream) && streamGeneration == t.generation;
      var attemptActive := bindingDone == Some(t.done) && bindingSessionId == t.session;
      success := false;
      if ok {
        if sameStream && attemptActive {
          boundSessionId, bindingSessionId := t.session, "";
          FinishBindingLocked();
          return true;
        }
        if attemptActive {
          bindingSessionId := "";
          FinishBindingLocked();
        }
        return;
      }
      if sameStream && attemptActive {
        CloseStreamLocked();
      } else if attemptActive {
        bindingSessionId := "";
        FinishBindingLocked();
      }
    }

    method BeginSend(session: SessionId) returns (entry: SendEntry)
      ensures entry == EnterSend(State(), session)
    {
      if boundSessionId == session && stream.Some? {
        return Sending(stream.value, streamGeneration);
      }
      if bindingSessionId == session {
        return AwaitSend(bindingDone);
      }
      if boundSessionId == "" {
        return NotBound;
      }
      if boundSessionId != session {
        return BoundToOther;
      }
      entry := Unmatched;
    }

    method EndSend(s: nat, generation: nat, ok: bool)
      modifies this
      ensures State() == FinishSend(old(State()), s, generation, ok)
    {
      if !ok && stream == Some(s) && streamGeneration == generation {
        CloseStreamLocked();
      }
    }
  }

  // ---- Many callers ----

  datatype Transfer = Transfer(session: SessionId, stream: nat, generation: nat)

  /** Callers between two sections: binding, sending or blocked on a done channel. `announced` records
      which streams carried a bind request for which session. */
  datatype System = System(
    client: Client,
    tickets: map<nat, Ticket>,
    transfers: map<nat, Transfer>,
    waits: map<nat, nat>,
    announced: set<(nat, SessionId)>)

  datatype CallStep =
    | BindEnter(caller: nat, session: SessionId)
    | BindFinish(caller: nat, ok: bool)
    | SendEnter(caller: nat, session: SessionId)
    | SendFinish(caller: nat, ok: bool)
    | Wake(caller: nat)
    | SetEndpoint(endpoint: string)
    | Close

  predicate Idle(s: System, caller: nat) {
    caller !in s.tickets && caller !in s.transfers && caller !in s.waits
  }

  /** A caller blocks until its done channel is closed; one it was given none to wait for goes on. */
  function Blocked(s: System, caller: nat, done: Option<nat>): System {
    if done.None? then s else s.(waits := s.waits[caller := done.value])
  }

  function CallNext(s: System, step: CallStep): System {
    match step
    case BindEnter(caller, session) =>
      if !Idle(s, caller) || session == "" then s
      else
        var (client', entry) := EnterBind(s.client, session);
        (match entry
         case Begun(ticket) => s.(client := client', tickets := s.tickets[caller := ticket])
         case AwaitBind(done) => Blocked(s, caller, done)
         case _ => s)
    case BindFinish(caller, ok) =>
      if caller !in s.tickets then s
      else
        var t := s.tickets[caller];
        s.(client := FinishBind(s.client, t, ok).0, tickets := s.tickets - {caller},
           announced := if ok then s.announced + {(t.stream, t.session)} else s.announced)
    case SendEnter(caller, session) =>
      if !Idle(s, caller) || session == "" then s
      else
        (match EnterSend(s.client, session)
         case Sending(stream, generation) =>
           s.(transfers := s.transfers[caller := Transfer(session, stream, generation)])
         case AwaitSend(done) => Blocked(s, caller, done)
         case _ => s)
    case SendFinish(caller, ok) =>
      if caller !in s.transfers then s
      else
        var x := s.transfers[caller];
        s.(client := FinishSend(s.client, x.stream, x.generation, ok), transfers := s.transfers - {caller})
    case Wake(caller) =>
      if caller in s.waits && s.waits[caller] in s.client.closed then s.(waits := s.waits - {caller}) else s
    case SetEndpoint(endpoint) => s.(client := Retarget(s.client, endpoint))
    case Close => s.(client := CloseLocked(s.client))
  }

  function CallExec(s: System, steps: seq<CallStep>): System {
    if steps == [] then s else CallNext(CallExec(s, steps[..|steps| - 1]), steps[|steps| - 1])
  }

  function NewSystem(endpoint: string): System {
    System(NewClient(endpoint), map[], map[], map[], {})
  }

  // ---- The invariant ----

  predicate ClientInv(c: Client) {
    && (c.bound != "" ==> c.stream.Some?)
    && (c.binding != "" <==> c.done.Some?)
    && !(c.bound != "" && c.binding != "")
    && c.sendMu == c.stream
    && (c.binding != "" ==> c.stream.Some?)
    && (c.stream.Some? ==> c.stream.value < c.nextId)
    && (c.done.Some? ==> c.done.value < c.nextId && c.closed[c.done.value] == 0)
    && (forall d <- c.closed :: d < c.nextId && c.closed[d] == 1)
  }

  /** The generation alone tells whether a remembered stream is still the client's. */
  predicate Remembers(c: Client, stream: nat, generation: nat) {
    && stream < c.nextId
    && generation <= c.generation
    && (c.stream == Some(stream) <==> c.generation == generation)
  }

  /** A done channel is still the client's, with its attempt's stream, or closed exactly once. */
  predicate TicketInv(c: Client, t: Ticket) {
    && t.session != ""
    && Remembers(c, t.stream, t.generation)
    && t.done < c.nextId
    && (c.done == Some(t.done) || c.closed[t.done] == 1)
    && (c.done == Some(t.done) ==> c.binding == t.session && SameStream(c, t))
  }

  predicate HasOwner(tickets: map<nat, Ticket>, done: nat) {
    exists k <- tickets :: tickets[k].done == done
  }

  predicate SystemInv(s: System) {
    && ClientInv(s.client)
    && (forall k <- s.tickets :: TicketInv(s.client, s.tickets[k]))
    && (forall k <- s.tickets, j <- s.tickets :: s.tickets[k].done == s.tickets[j].done ==> k == j)
    && (forall k <- s.transfers :: Remembers(s.client, s.transfers[k].stream, s.transfers[k].generation))
    && (forall k <- s.waits :: s.client.done == Some(s.waits[k]) || s.client.closed[s.waits[k]] == 1)
    && (s.client.done.Some? ==> HasOwner(s.tickets, s.client.done.value))
    && (s.client.bound != "" ==> (s.client.stream.value, s.client.bound) in s.announced)
    && (forall k <- s.transfers :: (s.transfers[k].stream, s.transfers[k].session) in s.announced)
  }

  /** Starting an attempt: the client stays sound, and whoever came before still recognises its state. */
  lemma BeginKeepsClient(c: Client, session: SessionId)
    requires ClientInv(c) && session != "" && EnterBind(c, session).1.Begun?
    ensures var (c', entry) := EnterBind(c, session);
            && ClientInv(c') && TicketInv(c', entry.ticket)
            && c.done.None? && c'.done == Some(entry.ticket.done) && c.nextId <= entry.ticket.done
            && c'.closed == c.closed && c'.bound == c.bound == ""
  {
  }

  lemma BeginKeepsTickets(c: Client, session: SessionId, t: Ticket)
    requires ClientInv(c) && session != "" && EnterBind(c, session).1.Begun? && TicketInv(c, t)
    ensures TicketInv(EnterBind(c, session).0, t)
  {
  }

  lemma BeginKeepsRemembers(c: Client, session: SessionId, stream: nat, generation: nat)
    requires ClientInv(c) && session != "" && EnterBind(c, session).1.Begun? && Remembers(c, stream, generation)
    ensures Remembers(EnterBind(c, session).0, stream, generation)
  {
  }

  lemma BegunKeepsInv(s: System, caller: nat, session: SessionId)
    requires SystemInv(s) && Idle(s, caller) && session != "" && EnterBind(s.client, session).1.Begun?
    ensures SystemInv(CallNext(s, BindEnter(caller, session)))
  {
    var s' := CallNext(s, BindEnter(caller, session));
    BeginKeepsClient(s.client, session);
    forall k <- s.tickets ensures TicketInv(s'.client, s.tickets[k]) {
      BeginKeepsTickets(s.client, session, s.tickets[k]);
    }
    forall k <- s.transfers ensures Remembers(s'.client, s.transfers[k].stream, s.transfers[k].generation) {
      BeginKeepsRemembers(s.client, session, s.transfers[k].stream, s.transfers[k].generation);
    }
    assert s'.tickets[caller].done == s'.client.done.value;
  }

  lemma BindEnterKeepsInv(s: System, caller: nat, session: SessionId)
    requires SystemInv(s)
    ensures SystemInv(CallNext(s, BindEnter(caller, session)))
  {
    if Idle(s, caller) && session != "" && EnterBind(s.client, session).1.Begun? {
      BegunKeepsInv(s, caller, session);
    }
  }

  lemma EndKeepsClient(c: Client, t: Ticket, ok: bool)
    requires ClientInv(c) && TicketInv(c, t)
    ensures ClientInv(FinishBind(c, t, ok).0)
    ensures FinishBind(c, t, ok).0.done == if c.done == Some(t.done) then None else c.done
    ensures FinishBind(c, t, ok).0.bound ==
            if c.done == Some(t.done) then (if ok then t.session else "") else c.bound
  {
  }

  lemma EndKeepsTickets(c: Client, t: Ticket, ok: bool, other: Ticket)
    requires ClientInv(c) && TicketInv(c, t) && TicketInv(c, other)
    ensures TicketInv(FinishBind(c, t, ok).0, other)
  {
  }

  lemma BindFinishKeepsInv(s: System, caller: nat, ok: bool)
    requires SystemInv(s)
    ensures SystemInv(CallNext(s, BindFinish(caller, ok)))
  {
    if caller in s.tickets {
      var t, s' := s.tickets[caller], CallNext(s, BindFinish(caller, ok));
      EndKeepsClient(s.client, t, ok);
      forall k <- s.tickets ensures TicketInv(s'.client, s.tickets[k]) {
        EndKeepsTickets(s.client, t, ok, s.tickets[k]);
      }
      if s'.client.done.Some? {
        var k :| k in s.tickets && s.tickets[k].done == s.client.done.value;
        assert k in s'.tickets && s'.tickets[k].done == s'.client.done.value;
      }
    }
  }

  lemma CloseKeepsInv(s: System)
    requires SystemInv(s)
    ensures SystemInv(s.(client := CloseLocked(s.client)))
  {
  }

  lemma SendEnterKeepsInv(s: System, caller: nat, session: SessionId)
    requires SystemInv(s)
    ensures SystemInv(CallNext(s, SendEnter(caller, session)))
  {
  }

  lemma SendFinishKeepsInv(s: System, caller: nat, ok: bool)
    requires SystemInv(s)
    ensures SystemInv(CallNext(s, SendFinish(caller, ok)))
  {
    CloseKeepsInv(s);
  }

  lemma WakeKeepsInv(s: System, caller: nat)
    requires SystemInv(s)
    ensures SystemInv(CallNext(s, Wake(caller)))
  {
  }

  lemma RetargetKeepsInv(s: System, endpoint: string)
    requires SystemInv(s)
    ensures SystemInv(CallNext(s, SetEndpoint(endpoint)))
  {
    CloseKeepsInv(s);
  }

  lemma CallStepKeepsInv(s: System, step: CallStep)
    requires SystemInv(s)
    ensures SystemInv(CallNext(s, step))
  {
    match step
    case BindEnter(caller, session) => BindEnterKeepsInv(s, caller, session);
    case BindFinish(caller, ok) => BindFinishKeepsInv(s, caller, ok);
    case SendEnter(caller, session) => SendEnterKeepsInv(s, caller, session);
    case SendFinish(caller, ok) => SendFinishKeepsInv(s, caller, ok);
    case Wake(caller) => WakeKeepsInv(s, caller);
    case SetEndpoint(endpoint) => RetargetKeepsInv(s, endpoint);
    case Close => CloseKeepsInv(s);
  }

  lemma {:induction false} CallRunKeepsInv(endpoint: string, steps: seq<CallStep>)
    ensures SystemInv(CallExec(NewSystem(endpoint), steps))
  {
    if steps != [] {
      CallRunKeepsInv(endpoint, steps[..|steps| - 1]);
      CallStepKeepsInv(CallExec(NewSystem(endpoint), steps[..|steps| - 1]), steps[|steps| - 1]);
    }
  }

  // ---- What every run guarantees ----

  /** Bound implies a live stream that carried this session's bind request; binding holds exactly
      while a done channel exists, and never together with bound. An attempt that is still active has
      its stream and generation unchanged, so the branches for an active attempt on a changed stream
      are dead. Every done channel handed out is the client's current one or closed exactly once, and
      the current one belongs to an attempt that will close it. */
  lemma {:induction false} BindSafety(endpoint: string, steps: seq<CallStep>)
    ensures var s := CallExec(NewSystem(endpoint), steps);
            var c := s.client;
            && (c.bound != "" ==> c.stream.Some? && (c.stream.value, c.bound) in s.announced)
            && (c.binding != "" <==> c.done.Some?)
            && !(c.bound != "" && c.binding != "")
            && (forall k <- s.tickets :: AttemptActive(c, s.tickets[k]) ==> SameStream(c, s.tickets[k]))
            && (forall d <- c.closed :: c.closed[d] == 1 && c.done != Some(d))
            && (forall k <- s.tickets :: c.done == Some(s.tickets[k].done) || c.closed[s.tickets[k].done] == 1)
            && (forall k <- s.waits :: c.done == Some(s.waits[k]) || s.waits[k] in c.closed)
            && (c.done.Some? ==> HasOwner(s.tickets, c.done.value))
  {
    CallRunKeepsInv(endpoint, steps);
  }

  /** The switches of both calls cover every reachable state, and whoever is told to wait is given a
      channel: no caller falls through with the mutex held or spins. */
  lemma {:induction false} EntryExhaustive(endpoint: string, steps: seq<CallStep>, session: SessionId)
    requires session != ""
    ensures var c := CallExec(NewSystem(endpoint), steps).client;
            && !EnterSend(c, session).Unmatched?
            && (EnterSend(c, session).AwaitSend? ==> EnterSend(c, session).done.Some?)
            && (EnterBind(c, session).1.AwaitBind? ==> EnterBind(c, session).1.done.Some?)
  {
    CallRunKeepsInv(endpoint, steps);
  }

  /** A voucher is only ever sent on a stream that carried the bind request of its session. */
  lemma SendsOnlyWhereBound(endpoint: string, steps: seq<CallStep>, caller: nat)
    requires caller in CallExec(NewSystem(endpoint), steps).transfers
    ensures var s := CallExec(NewSystem(endpoint), steps);
            (s.transfers[caller].stream, s.transfers[caller].session) in s.announced
  {
    CallRunKeepsInv(endpoint, steps);
  }

  /** The owner of the current done channel closes it whatever its send returned, so every waiter on
      it can go on. */
  lemma OwnerReleasesWaiters(endpoint: string, steps: seq<CallStep>, caller: nat, ok: bool, waiter: nat)
    requires var s := CallExec(NewSystem(endpoint), steps);
             caller in s.tickets && s.client.done == Some(s.tickets[caller].done) && waiter in s.waits
    ensures var s := CallExec(NewSystem(endpoint), steps);
            var s' := CallNext(s, BindFinish(caller, ok));
            && s'.client.done.None?
            && waiter !in CallNext(s', Wake(waiter)).waits
            && (s'.client.bound == s.tickets[caller].session <==> ok)
  {
    CallRunKeepsInv(endpoint, steps);
  }

  /** A late result of an attempt that lost its stream changes nothing. */
  lemma LateFinishIsHarmless(endpoint: string, steps: seq<CallStep>, caller: nat, ok: bool)
    requires caller in CallExec(NewSystem(endpoint), steps).tickets
    ensures var s := CallExec(NewSystem(endpoint), steps);
            var t := s.tickets[caller];
            !AttemptActive(s.client, t) || !SameStream(s.client, t) ==>
              FinishBind(s.client, t, ok) == (s.client, false)
  {
    CallRunKeepsInv(endpoint, steps);
  }
}
