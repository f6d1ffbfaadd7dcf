/** The plugin's metering emitter: callers enqueue events into a bounded buffer, one loop batches
    them into reports and drains what is left when it is told to stop. */
module MeteringEmitter {
  import opened Basics

  datatype Event = Event(endpoint: string, sessionId: SessionId, metrics: seq<int>)

  datatype Reported = Reported(network: string, event: Event)

  /** `Looping` until the loop sees the stop signal, `Flushing` once it has refused new events. */
  datatype Phase = Looping | Flushing | Exited

  /** `enqueued` is every event that entered the buffer, `reports` the batches handed over: history. */
  datatype Emitter = Emitter(
    network: string,
    capacity: nat,
    panicOnDrop: bool,
    buffer: seq<Event>,
    activeBatch: seq<Reported>,
    shuttingDown: bool,
    phase: Phase,
    enqueued: seq<Event>,
    reports: seq<seq<Reported>>)

  /** A full buffer drops the event, or panics if the emitter is configured to. */
  datatype Outcome = Queued | NoEndpoint | ShuttingDown | Dropped | Panicked

  function New(network: string, capacity: nat, panicOnDrop: bool): Emitter {
    Emitter(network, capacity, panicOnDrop, [], [], false, Looping, [], [])
  }

  /** `Emit`: the check of the stop signal before the mutex may or may not have seen it. */
  function Verdict(e: Emitter, ev: Event, sawStop: bool): Outcome {
    if ev.endpoint == "" then NoEndpoint
    else if sawStop || e.shuttingDown then ShuttingDown
    else if |e.buffer| >= e.capacity then (if e.panicOnDrop then Panicked else Dropped)
    else Queued
  }

  function DoEmit(e: Emitter, ev: Event, sawStop: bool): Emitter {
    if Verdict(e, ev, sawStop).Queued? then e.(buffer := e.buffer + [ev], enqueued := e.enqueued + [ev]) else e
  }

  /** An empty batch is not sent. */
  function Report(e: Emitter): Emitter {
    if e.activeBatch == [] then e else e.(reports := e.reports + [e.activeBatch])
  }

  function DoTick(e: Emitter): Emitter {
    if !e.phase.Looping? then e else Report(e).(activeBatch := [])
  }

  function Take(e: Emitter): Emitter
    requires e.buffer != []
  {
    e.(buffer := e.buffer[1..], activeBatch := e.activeBatch + [Reported(e.network, e.buffer[0])])
  }

  function DoTake(e: Emitter): Emitter {
    if !e.phase.Looping? || e.buffer == [] then e else Take(e)
  }

  function DoStop(e: Emitter): Emitter {
    if !e.phase.Looping? then e else e.(shuttingDown := true, phase := Flushing)
  }

  /** One turn of the flush loop: it ends when the buffer is empty. */
  function DoFlush(e: Emitter): Emitter {
    if !e.phase.Flushing? then e
    else if e.buffer != [] then Take(e)
    else Report(e).(phase := Exited)
  }

  datatype EmitterStep = Emit(event: Event, sawStop: bool) | Tick | TakeOne | Stop | Flush

  function EmitterNext(e: Emitter, step: EmitterStep): Emitter {
    match step
    case Emit(ev, sawStop) => DoEmit(e, ev, sawStop)
    case Tick => DoTick(e)
    case TakeOne => DoTake(e)
    case Stop => DoStop(e)
    case Flush => DoFlush(e)
  }

  function EmitterExec(e: Emitter, steps: seq<EmitterStep>): Emitter {
    if steps == [] then e else EmitterNext(EmitterExec(e, steps[..|steps| - 1]), steps[|steps| - 1])
  }

  // ---- Conservation ----

  function Converted(network: string, events: seq<Event>): (r: seq<Reported>)
    ensures |r| == |events|
  {
    seq(|events|, i requires 0 <= i < |events| => Reported(network, events[i]))
  }

  function Flat(reports: seq<seq<Reported>>): seq<Reported> {
    if reports == [] then [] else Flat(reports[..|reports| - 1]) + reports[|reports| - 1]
  }

  /** Reports, then the active batch, then the buffer hold the enqueued events in order. */
  predicate Conserved(e: Emitter) {
    && (e.phase.Looping? <==> !e.shuttingDown)
    && |e.buffer| <= e.capacity
    && (if e.phase.Exited? then e.buffer == [] && Flat(e.reports) == Converted(e.network, e.enqueued)
        else Flat(e.reports) + e.activeBatch + Converted(e.network, e.buffer) == Converted(e.network, e.enqueued))
  }

  lemma EmitConserves(e: Emitter, ev: Event, sawStop: bool)
    requires Conserved(e)
    ensures Conserved(DoEmit(e, ev, sawStop))
  {
    assert Converted(e.network, e.buffer + [ev]) == Converted(e.network, e.buffer) + [Reported(e.network, ev)];
    assert Converted(e.network, e.enqueued + [ev]) == Converted(e.network, e.enqueued) + [Reported(e.network, ev)];
  }

  lemma TakeConserves(e: Emitter)
    requires Conserved(e) && e.buffer != [] && !e.phase.Exited?
    ensures Conserved(Take(e))
  {
    assert Converted(e.network, e.buffer) == [Reported(e.network, e.buffer[0])] + Converted(e.network, e.buffer[1..]);
  }

  lemma TakeMoves(network: string, batch: seq<Reported>, buffer: seq<Event>)
    requires buffer != []
    ensures batch + [Reported(network, buffer[0])] + Converted(network, buffer[1..]) ==
            batch + Converted(network, buffer)
  {
    assert Converted(network, buffer) == [Reported(network, buffer[0])] + Converted(network, buffer[1..]);
  }

  lemma ReportConserves(e: Emitter)
    ensures Flat(Report(e).reports) == Flat(e.reports) + e.activeBatch
  {
  }

  lemma EmitterStepConserves(e: Emitter, step: EmitterStep)
    requires Conserved(e)
    ensures Conserved(EmitterNext(e, step))
  {
    match step
    case Emit(ev, sawStop) => EmitConserves(e, ev, sawStop);
    case Tick => ReportConserves(e);
    case TakeOne => if e.phase.Looping? && e.buffer != [] { TakeConserves(e); }
    case Stop =>
    case Flush =>
      if e.phase.Flushing? && e.buffer != [] { TakeConserves(e); }
      ReportConserves(e);
  }

  lemma {:induction false} EmitterRunConserves(network: string, capacity: nat, panicOnDrop: bool,
                                               steps: seq<EmitterStep>)
    ensures Conserved(EmitterExec(New(network, capacity, panicOnDrop), steps))
  {
    if steps != [] {
      EmitterRunConserves(network, capacity, panicOnDrop, steps[..|steps| - 1]);
      EmitterStepConserves(EmitterExec(New(network, capacity, panicOnDrop), steps[..|steps| - 1]), steps[|steps| - 1]);
    }
  }

  /** In every run each enqueued event is in exactly one place, in order; when the loop has exited the
      buffer is empty and the reports are the enqueued events, each in exactly one batch. */
  lemma {:induction false} MeteringConserved(network: string, capacity: nat, panicOnDrop: bool, steps: seq<EmitterStep>)
    ensures var e := EmitterExec(New(network, capacity, panicOnDrop), steps);
            && (e.phase.Exited? ==> e.buffer == [] && Flat(e.reports) == Converted(e.network, e.enqueued))
            && (!e.phase.Exited? ==>
                  Flat(e.reports) + e.activeBatch + Converted(e.network, e.buffer) == Converted(e.network, e.enqueued))
  {
    EmitterRunConserves(network, capacity, panicOnDrop, steps);
  }

  /** Once the flush has begun a late `Emit` cannot add to it, so the flush ends after as many turns as
      there are buffered events, whatever interleaves. */
  lemma {:induction false} FlushEnds(e: Emitter, steps: seq<EmitterStep>)
    requires Conserved(e) && e.phase.Flushing?
    ensures var e' := EmitterExec(e, steps);
            && Conserved(e') && !e'.phase.Looping? && e'.enqueued == e.enqueued
            && (e'.phase.Flushing? ==> |e'.buffer| == |e.buffer| - Flushes(steps))
            && (Flushes(steps) > |e.buffer| ==> e'.phase.Exited?)
  {
    if steps != [] {
      var front := steps[..|steps| - 1];
      FlushEnds(e, front);
      EmitterStepConserves(EmitterExec(e, front), steps[|steps| - 1]);
    }
  }

  function Flushes(steps: seq<EmitterStep>): nat {
    if steps == [] then 0
    else Flushes(steps[..|steps| - 1]) + if steps[|steps| - 1].Flush? then 1 else 0
  }

  // ---- The emitter object ----

  class EventEmitter {
    const network: string
    const capacity: nat
    const panicOnDrop: bool
    var buffer: seq<Event>
    var activeBatch: seq<Reported>
    var shuttingDown: bool
    var phase: Phase
    ghost var enqueued: seq<Event>
    ghost var reports: seq<seq<Reported>>

    ghost function State(): Emitter
      reads this
    {
      Emitter(network, capacity, panicOnDrop, buffer, activeBatch, shuttingDown, phase, enqueued, reports)
    }

    constructor (network: string, capacity: nat, panicOnDrop: bool)
      ensures State() == New(network, capacity, panicOnDrop)
    {
      this.network, this.capacity, this.panicOnDrop := network, capacity, panicOnDrop;
      buffer, activeBatch, shuttingDown, phase := [], [], false, Looping;
      enqueued, reports := [], [];
    }

    method Emit(ev: Event, sawStop: bool) returns (outcome: Outcome)
      modifies this
      ensures outcome == Verdict(old(State()), ev, sawStop)
      ensures State() == DoEmit(old(State()), ev, sawStop)
    {
      if ev.endpoint == "" {
        return NoEndpoint;
      }
      if sawStop || shuttingDown {
        return ShuttingDown;
      }
      if |buffer| >= capacity {
        return if panicOnDrop then Panicked else Dropped;
      }
      buffer, enqueued := buffer + [ev], enqueued + [ev];
      outcome := Queued;
    }

    method Send(events: seq<Reported>)
      modifies this`reports
      ensures reports == if events == [] then old(reports) else old(reports) + [events]
    {
      if |events| == 0 {
        return;
      }
      reports := reports + [events];
    }

    method OnTick()
      requires phase.Looping?
      modifies this
      ensures State() == DoTick(old(State()))
    {
      Send(activeBatch);
      activeBatch := [];
    }

    method OnEvent()
      requires phase.Looping? && buffer != []
      modifies this
      ensures State() == DoTake(old(State()))
    {
      activeBatch := activeBatch + [Reported(network, buffer[0])];
      buffer := buffer[1..];
    }

    method BeginShutdown()
      requires phase.Looping?
      modifies this
      ensures State() == DoStop(old(State()))
    {
      shuttingDown, phase := true, Flushing;
    }

    /** `flushAndClose`: everything still buffered joins the last batch. */
    method FlushAndClose()
      requires phase.Flushing? && Conserved(State())
      modifies this
      ensures phase.Exited? && Conserved(State()) && buffer == [] && enqueued == old(enqueued)
      ensures activeBatch == old(activeBatch) + Converted(network, old(buffer))
      ensures reports == if activeBatch == [] then old(reports) else old(reports) + [activeBatch]
    {
      while buffer != []
        invariant phase.Flushing? && Conserved(State()) && enqueued == old(enqueued) && reports == old(reports)
        invariant activeBatch + Converted(network, buffer) == old(activeBatch) + Converted(network, old(buffer))
        decreases |buffer|
      {
        TakeConserves(State());
        TakeMoves(network, activeBatch, buffer);
        activeBatch := activeBatch + [Reported(network, buffer[0])];
        buffer := buffer[1..];
      }
      ReportConserves(State());
      Send(activeBatch);
      phase := Exited;
    }
  }
}
