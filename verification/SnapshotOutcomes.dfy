/**
 Why the coordinator retries, gives up, ends and calls itself ready
 (realtime/client.go): over every interleaving, told from the events alone.
 */
module SnapshotOutcomes {
  import opened Basics
  import opened SnapshotProtocol
  import opened SnapshotTheorems

  // ---------- One bounded retry ----------

  /** A worker's turn since it last took the noted request: refreshes begun and failed, pauses cut short. */
  datatype Turn = Turn(begun: nat, failed: nat, cancelled: nat)

  /** The refresh of worker `id` ends in an error: its fetch failed, or a callback of its merge panicked. */
  predicate FailedRefresh<T>(st: State<T>, e: Event<T>, id: WorkerId) {
    CallerOf(st.refresher) == ByWorker(id) && (e == FetchReturnedEvent(false) || e.MergePanickedEvent?)
  }

  function NextTurn<T>(st: State<T>, e: Event<T>, id: WorkerId, t: Turn): Turn {
    if e == WorkerTopEvent(id) then Turn(0, 0, 0)
    else if e == BeginEvent(ByWorker(id)) then t.(begun := t.begun + 1)
    else if FailedRefresh(st, e, id) then t.(failed := t.failed + 1)
    else if e == WorkerResumesEvent(id, true) then t.(cancelled := t.cancelled + 1)
    else t
  }

  function TurnOf<T>(states: seq<State<T>>, events: seq<Event<T>>, id: WorkerId, i: nat): Turn
    requires |states| == |events| + 1 && i < |states|
  {
    if i == 0 then Turn(0, 0, 0) else NextTurn(states[i - 1], events[i - 1], id, TurnOf(states, events, id, i - 1))
  }

  /** Where a worker can be in each turn. */
  ghost predicate Tallied<T>(st: State<T>, id: WorkerId, t: Turn) {
    && t.begun <= 2 && t.failed <= t.begun
    && (id >= st.nextWorker ==> t == Turn(0, 0, 0))
    && (id in st.workers ==>
          match st.workers[id]
          case Top => t.failed + t.cancelled <= 1
          case Wanting(retry) => t == if retry then Turn(1, 1, 0) else Turn(0, 0, 0)
          case Refreshing(retry) => t == if retry then Turn(2, 1, 0) else Turn(1, 0, 0)
          case Pausing => t == Turn(1, 1, 0)
          case Failing => t == Turn(2, 2, 0) || t == Turn(1, 1, 1))
  }

  lemma LeaveTallied<T>(st: State<T>, id: WorkerId, t: Turn, ok: bool)
    requires SingleFlight(st) && Tallied(st, id, t) && !st.refresher.Idle?
    ensures Tallied(Leave(st, CallerOf(st.refresher), ok), id,
              if !ok && CallerOf(st.refresher) == ByWorker(id) then t.(failed := t.failed + 1) else t)
  {
  }

  lemma WorkerTallied<T>(st: State<T>, e: Event<T>, id: WorkerId, t: Turn)
    requires SingleFlight(st) && Enabled(st, e) && Tallied(st, id, t)
    requires e.WorkerTopEvent? || e.WorkerResumesEvent? || e.WorkerFailsEvent? || e.RequestEvent?
    ensures Tallied(Step(st, e), id, NextTurn(st, e, id, t))
  {
  }

  lemma BeginTallied<T>(st: State<T>, caller: Caller, id: WorkerId, t: Turn)
    requires SingleFlight(st) && Enabled(st, BeginEvent(caller)) && Tallied(st, id, t)
    ensures Tallied(BeginRefresh(st, caller), id, NextTurn(st, BeginEvent(caller), id, t))
  {
  }

  lemma FetchTallied<T>(st: State<T>, ok: bool, id: WorkerId, t: Turn)
    requires SingleFlight(st) && st.refresher.Fetching? && Tallied(st, id, t)
    ensures Tallied(FetchReturned(st, ok), id, NextTurn(st, FetchReturnedEvent(ok), id, t))
  {
    hide SingleFlight, Leave, Tallied;
    if !ok {
      QuietSingleFlight(st, SetErr(st));
      QuietTallied(st, SetErr(st), id, t);
      LeaveTallied(SetErr(st), id, t, false);
    } else if st.disposed || st.refresher.generation != st.generation {
      LeaveTallied(st, id, t, true);
    } else {
      QuietTallied(st, FetchReturned(st, ok), id, t);
    }
  }

  lemma PanicTallied<T>(st: State<T>, count: nat, id: WorkerId, t: Turn)
    requires SingleFlight(st) && Enabled(st, MergePanickedEvent(count)) && Tallied(st, id, t)
    ensures Tallied(MergePanicked(st, count), id, NextTurn(st, MergePanickedEvent(count), id, t))
  {
    hide SingleFlight, Leave, Tallied;
    var st1 := FailClosed(st.(applied := st.applied + st.refresher.batch[..count]));
    QuietSingleFlight(st, st1);
    QuietTallied(st, st1, id, t);
    LeaveTallied(st1, id, t, false);
  }

  lemma DrainTallied<T>(st: State<T>, id: WorkerId, t: Turn)
    requires SingleFlight(st) && st.refresher.Draining? && Tallied(st, id, t)
    ensures Tallied(Drain(st), id, t)
  {
    hide SingleFlight, Leave, Tallied;
    if st.disposed || st.refresher.generation != st.generation {
      LeaveTallied(st, id, t, true);
    } else if st.pending == [] {
      var st1 := st.(ready := true);
      QuietSingleFlight(st, st1);
      QuietTallied(st, st1, id, t);
      LeaveTallied(st1, id, t, true);
    } else {
      QuietTallied(st, Drain(st), id, t);
    }
  }

  lemma QuietTallied<T>(st: State<T>, st': State<T>, id: WorkerId, t: Turn)
    requires Tallied(st, id, t) && st'.workers == st.workers && st'.nextWorker == st.nextWorker
    ensures Tallied(st', id, t)
  {
  }

  lemma StepTallied<T>(st: State<T>, e: Event<T>, id: WorkerId, t: Turn)
    requires Inv(st) && Enabled(st, e) && Tallied(st, id, t)
    ensures Tallied(Step(st, e), id, NextTurn(st, e, id, t))
  {
    hide Accounted, Dated, SingleFlight, Tallied, FetchReturned, MergePanicked, Drain, BeginRefresh, Request, WorkerTop,
      WorkerResumes, WorkerFails;
    match e {
      case RequestEvent => WorkerTallied(st, e, id, t);
      case WorkerTopEvent(_) => WorkerTallied(st, e, id, t);
      case WorkerResumesEvent(_, _) => WorkerTallied(st, e, id, t);
      case WorkerFailsEvent(_) => WorkerTallied(st, e, id, t);
      case BeginEvent(caller) => BeginTallied(st, caller, id, t);
      case FetchReturnedEvent(ok) => FetchTallied(st, ok, id, t);
      case MergePanickedEvent(count) => PanicTallied(st, count, id, t);
      case DrainEvent => DrainTallied(st, id, t);
      case _ => QuietTallied(st, Step(st, e), id, t);
    }
  }

  lemma {:induction false} ExecutionTallied<T>(states: seq<State<T>>, events: seq<Event<T>>, maxBuffered: int, i: nat,
                                               id: WorkerId)
    requires Execution(states, events, maxBuffered) && i < |states|
    ensures Tallied(states[i], id, TurnOf(states, events, id, i))
    decreases i
  {
    hide Inv, Step, Enabled, NextTurn;
    if i > 0 {
      ExecutionTallied(states, events, maxBuffered, i - 1, id);
      ExecutionInv(states, events, maxBuffered, i - 1);
      assert Follows(states, events, i - 1);
      hide Tallied;
      StepTallied(states[i - 1], events[i - 1], id, TurnOf(states, events, id, i - 1));
    }
  }

  /**
   A worker begins at most two refreshes a turn; it pauses exactly when the first of them failed; it fails the
   stream exactly when both failed, or the first did and the pause was cut short.
   */
  lemma RetriesOnce<T>(states: seq<State<T>>, events: seq<Event<T>>, maxBuffered: int, i: nat, id: WorkerId)
    requires Execution(states, events, maxBuffered) && i < |states|
    ensures var t := TurnOf(states, events, id, i);
      && t.begun <= 2 && t.failed <= t.begun
      && (id in states[i].workers ==>
            && (states[i].workers[id] == Failing <==>
                t == Turn(2, 2, 0) || t == Turn(1, 1, 1))
            && (t == Turn(1, 1, 0) ==> states[i].workers[id] in {Pausing, Wanting(true), Top})
            && (states[i].workers[id] == Pausing ==> t == Turn(1, 1, 0)))
  {
    ExecutionTallied(states, events, maxBuffered, i, id);
  }

  /** The first failure of a turn makes the worker pause, the second makes it give up, and neither happens otherwise. */
  lemma FailureOutcome<T>(states: seq<State<T>>, events: seq<Event<T>>, maxBuffered: int, k: nat, id: WorkerId)
    requires Execution(states, events, maxBuffered) && k < |events| && FailedRefresh(states[k], events[k], id)
    ensures id in states[k + 1].workers
    ensures states[k + 1].workers[id] == if TurnOf(states, events, id, k).failed == 0 then Pausing else Failing
  {
    ExecutionInv(states, events, maxBuffered, k);
    ExecutionTallied(states, events, maxBuffered, k, id);
    assert Follows(states, events, k);
  }

  /** The step that ends a living stream: an overflow, a panic of a callback, a worker giving up, or an outright end. */
  predicate Ends<T>(st: State<T>, e: Event<T>) {
    match e
    case ReceiveEvent(items) => items != [] && !st.ready && |st.pending| + |items| > st.maxBuffered
    case ReadPanickedEvent => true
    case LiveReturnedEvent(count) => st.stream.Applying? && count < |st.stream.batch|
    case MergePanickedEvent(_) => true
    case WorkerFailsEvent(_) => true
    case FailClosedEvent => true
    case StopEvent => true
    case _ => false
  }

  lemma LeaveStays<T>(st: State<T>, caller: Caller, ok: bool)
    ensures var st' := Leave(st, caller, ok);
      && st'.workers.Keys == st.workers.Keys && st'.refresher.Idle?
      && st'.disposed == st.disposed && st'.ready == st.ready
  {
  }

  lemma BeginStays<T>(st: State<T>, caller: Caller)
    ensures var st' := BeginRefresh(st, caller);
      && st'.workers.Keys == st.workers.Keys
      && st'.disposed == st.disposed && st'.ready == (st.ready && st.disposed)
  {
    hide Leave;
    LeaveStays(Enter(st, caller), caller, true);
  }

  /** Only a worker at the top of its loop, or one giving up, is gone after a step. */
  lemma StepStays<T>(st: State<T>, e: Event<T>, id: WorkerId)
    requires Enabled(st, e) && id in st.workers && e != WorkerTopEvent(id) && e != WorkerFailsEvent(id)
    ensures id in Step(st, e).workers
  {
    hide Leave, BeginRefresh, Receive, FailClosed, LiveReturned;
    match e {
      case BeginEvent(caller) => BeginStays(st, caller);
      case FetchReturnedEvent(ok) =>
        LeaveStays(SetErr(st), st.refresher.caller, false);
        LeaveStays(st, st.refresher.caller, true);
      case MergePanickedEvent(count) =>
        var st1 := st.(applied := st.applied + st.refresher.batch[..count]);
        EndStays(st1);
        LeaveStays(FailClosed(st1), st.refresher.caller, false);
      case DrainEvent =>
        LeaveStays(st, st.refresher.caller, true);
        LeaveStays(st.(ready := true), st.refresher.caller, true);
      case ReceiveEvent(items) => ReceiveStays(st, items);
      case LiveReturnedEvent(count) => LiveStays(st, count);
      case WorkerFailsEvent(other) => EndStays(st.(workers := st.workers - {other}));
      case _ => EndStays(st);
    }
  }

  lemma EndStays<T>(st: State<T>)
    ensures FailClosed(st).workers == st.workers && FailClosed(st).disposed
    ensures FailClosed(st).ready == (st.ready && st.disposed)
  {
  }

  lemma ReceiveStays<T>(st: State<T>, items: seq<T>)
    ensures Receive(st, items).workers == st.workers
    ensures Receive(st, items).disposed <==> st.disposed || Ends(st, ReceiveEvent(items))
    ensures Receive(st, items).ready == st.ready
  {
  }

  lemma LiveStays<T>(st: State<T>, count: nat)
    requires st.stream.Applying? && count <= |st.stream.batch|
    ensures var st' := LiveReturned(st, count);
      && st'.workers == st.workers
      && (st'.disposed <==> st.disposed || Ends(st, LiveReturnedEvent(count)))
      && st'.ready == (st.ready && (st.disposed || !Ends(st, LiveReturnedEvent(count))))
  {
  }

  lemma GoneFromTop<T>(st: State<T>, id: WorkerId)
    requires At(st, id, Top)
    ensures Step(st, WorkerTopEvent(id)).disposed == st.disposed
    ensures id !in Step(st, WorkerTopEvent(id)).workers ==> st.disposed || !st.refreshNext
  {
  }

  lemma GoneFailing<T>(st: State<T>, id: WorkerId)
    requires At(st, id, Failing)
    ensures Step(st, WorkerFailsEvent(id)).disposed
  {
  }

  /**
   A worker is gone only from the top of its loop, with nothing noted or the stream over, or by failing the
   stream.
   */
  lemma WorkerGone<T>(states: seq<State<T>>, events: seq<Event<T>>, maxBuffered: int, k: nat, id: WorkerId)
    requires Execution(states, events, maxBuffered) && k < |events|
    requires id in states[k].workers && id !in states[k + 1].workers
    ensures states[k + 1].disposed || (events[k] == WorkerTopEvent(id) && !states[k].refreshNext)
    ensures !states[k].disposed && states[k + 1].disposed ==>
      var t := TurnOf(states, events, id, k);
        events[k] == WorkerFailsEvent(id) && (t == Turn(2, 2, 0) || t == Turn(1, 1, 1))
  {
    assert Follows(states, events, k);
    var st, e := states[k], events[k];
    ExecutionTallied(states, events, maxBuffered, k, id);
    hide Execution, Step;
    if e == WorkerTopEvent(id) {
      GoneFromTop(st, id);
    } else if e == WorkerFailsEvent(id) {
      GoneFailing(st, id);
    } else {
      StepStays(st, e, id);
    }
  }

  // ---------- Why it ends, and when it is ready ----------

  lemma StepEnds<T>(st: State<T>, e: Event<T>)
    requires Enabled(st, e)
    ensures Step(st, e).disposed <==> st.disposed || Ends(st, e)
  {
    hide Leave, BeginRefresh, Receive, FailClosed, LiveReturned;
    match e {
      case BeginEvent(caller) => BeginStays(st, caller);
      case FetchReturnedEvent(ok) =>
        LeaveStays(SetErr(st), st.refresher.caller, false);
        LeaveStays(st, st.refresher.caller, true);
      case MergePanickedEvent(count) =>
        var st1 := st.(applied := st.applied + st.refresher.batch[..count]);
        EndStays(st1);
        LeaveStays(FailClosed(st1), st.refresher.caller, false);
      case DrainEvent =>
        LeaveStays(st, st.refresher.caller, true);
        LeaveStays(st.(ready := true), st.refresher.caller, true);
      case ReceiveEvent(items) => ReceiveStays(st, items);
      case LiveReturnedEvent(count) => LiveStays(st, count);
      case WorkerFailsEvent(id) => EndStays(st.(workers := st.workers - {id}));
      case _ => EndStays(st);
    }
  }

  /** A stream is over exactly when a step that ends streams was taken. */
  lemma {:induction false} WhyDisposed<T>(states: seq<State<T>>, events: seq<Event<T>>, maxBuffered: int, i: nat)
    requires Execution(states, events, maxBuffered) && i < |states|
    ensures states[i].disposed <==> exists k :: 0 <= k < i && Ends(states[k], events[k])
    decreases i
  {
    hide Step, Enabled, Ends;
    if i > 0 {
      WhyDisposed(states, events, maxBuffered, i - 1);
      assert Follows(states, events, i - 1);
      StepEnds(states[i - 1], events[i - 1]);
    }
  }

  /** Readiness as the events tell it. */
  predicate TellsReady<T>(st: State<T>, e: Event<T>, before: bool) {
    if st.disposed then before && e != TransportErrorEvent && e != FetchReturnedEvent(false)
    else match e
      case DrainEvent => before || st.pending == []
      case BeginEvent(_) => false
      case TransportErrorEvent => false
      case FetchReturnedEvent(ok) => before && ok
      case StopEvent => before
      case _ => before && !Ends(st, e)
  }

  predicate ToldReady<T>(states: seq<State<T>>, events: seq<Event<T>>, i: nat)
    requires |states| == |events| + 1 && i < |states|
  {
    i > 0 && TellsReady(states[i - 1], events[i - 1], ToldReady(states, events, i - 1))
  }

  lemma StepReady<T>(st: State<T>, e: Event<T>)
    requires Enabled(st, e) && Inv(st)
    ensures Step(st, e).ready <==> TellsReady(st, e, st.ready)
  {
    hide Leave, BeginRefresh, Receive, FailClosed, LiveReturned, Accounted, SingleFlight;
    match e {
      case BeginEvent(caller) => BeginStays(st, caller);
      case FetchReturnedEvent(ok) =>
        LeaveStays(SetErr(st), st.refresher.caller, false);
        LeaveStays(st, st.refresher.caller, true);
      case MergePanickedEvent(count) =>
        var st1 := st.(applied := st.applied + st.refresher.batch[..count]);
        EndStays(st1);
        LeaveStays(FailClosed(st1), st.refresher.caller, false);
      case DrainEvent =>
        LeaveStays(st, st.refresher.caller, true);
        LeaveStays(st.(ready := true), st.refresher.caller, true);
      case ReceiveEvent(items) => ReceiveStays(st, items);
      case LiveReturnedEvent(count) => LiveStays(st, count);
      case WorkerFailsEvent(id) => EndStays(st.(workers := st.workers - {id}));
      case _ => EndStays(st);
    }
  }

  /**
   The stream is ready exactly when a refresh drained the buffer since the last refresh began, the last fetch
   or transport error, and the end; stopping it leaves readiness as it is.
   */
  lemma {:induction false} WhyReady<T>(states: seq<State<T>>, events: seq<Event<T>>, maxBuffered: int, i: nat)
    requires Execution(states, events, maxBuffered) && i < |states|
    ensures states[i].ready <==> ToldReady(states, events, i)
    decreases i
  {
    hide Inv, Step, Enabled, TellsReady;
    if i > 0 {
      WhyReady(states, events, maxBuffered, i - 1);
      ExecutionInv(states, events, maxBuffered, i - 1);
      assert Follows(states, events, i - 1);
      StepReady(states[i - 1], events[i - 1]);
    }
  }

  /** A refresh of a living stream ends with a failed fetch or with the stream ready. */
  lemma RefreshEnds<T>(states: seq<State<T>>, events: seq<Event<T>>, maxBuffered: int, k: nat)
    requires Execution(states, events, maxBuffered) && k < |events|
    requires !states[k].refresher.Idle? && states[k + 1].refresher.Idle? && !states[k + 1].disposed
    ensures events[k] == FetchReturnedEvent(false) || (events[k].DrainEvent? && states[k + 1].ready)
  {
    ExecutionInv(states, events, maxBuffered, k);
    assert Follows(states, events, k);
    hide Accounted, SingleFlight;
  }
}
