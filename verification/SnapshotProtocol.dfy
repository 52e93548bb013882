/**
 The snapshot-then-stream coordinator (realtime/client.go) as a transition
 system of two actors and any number of callers: the stream worker, the holder
 of the refresh mutex, and the workers behind `RequestSnapshotRefresh`.

 Each step is one section under the mutex, or the return of a callback. The
 history variables `received`, `applied`, `requests` and `served` record what
 the code does not keep.
 */
module SnapshotProtocol {
  import opened Basics

  type WorkerId = nat

  /** What the stream worker is doing: waiting for a publication, or in the live callback. */
  datatype Stream<T> = Listening | Applying(batch: seq<T>)

  datatype Caller = ByWorker(id: WorkerId) | ByOther

  /** The one `RefreshSnapshot` that holds the refresh mutex. */
  datatype Refresher<T> =
    | Idle
    | Fetching(generation: int, caller: Caller)
    | Merging(generation: int, caller: Caller, batch: seq<T>)
    | Draining(generation: int, caller: Caller)

  /**
   The single-flight worker: at the top of its loop, waiting for the mutex, refreshing, pausing before the
   retry, failing the stream.
   */
  datatype Worker = Top | Wanting(retry: bool) | Refreshing(retry: bool) | Pausing | Failing

  datatype State<T> = State(
    maxBuffered: int,
    ready: bool,
    disposed: bool,
    generation: int,
    pending: seq<T>,
    refreshRun: bool,
    refreshNext: bool,
    // Where the goroutines are.
    stream: Stream<T>,
    refresher: Refresher<T>,
    workers: map<WorkerId, Worker>,
    nextWorker: WorkerId,
    // History.
    received: seq<T>,
    applied: seq<T>,
    requests: nat,
    served: nat)

  function Initial<T>(maxBuffered: int): State<T> {
    State(if maxBuffered <= 0 then 200
      else maxBuffered, false, false, 0, [], false, false, Listening, Idle, map[], 0, [], [], 0, 0)
  }

  // ---------- Sections ----------

  function FailClosed<T>(st: State<T>): State<T> {
    if st.disposed then st
    else st.(ready := false, disposed := true, generation := st.generation + 1, pending := [])
  }

  function SetErr<T>(st: State<T>): State<T> {
    st.(ready := false)
  }

  function Stop<T>(st: State<T>): State<T> {
    st.(disposed := true, generation := st.generation + 1, pending := [])
  }

  /** `handlePublication` once the publication is read. */
  function Receive<T>(st: State<T>, items: seq<T>): State<T> {
    if st.disposed || items == [] then st
    else if st.ready then st.(stream := Applying(items), received := st.received + items)
    else if |st.pending| + |items| > st.maxBuffered then
      st.(ready := false, disposed := true, generation := st.generation + 1, pending := [],
        received := st.received + items)
    else st.(pending := st.pending + items, received := st.received + items)
  }

  /** The live callback returns having applied `count` items; it panicked unless that is all of them. */
  function LiveReturned<T>(st: State<T>, count: nat): State<T>
    requires st.stream.Applying? && count <= |st.stream.batch|
  {
    var st1 := st.(stream := Listening, applied := st.applied + st.stream.batch[..count]);
    if count == |st.stream.batch| then st1 else FailClosed(st1)
  }

  /** The mutex is acquired. */
  function BeginRefresh<T>(st: State<T>, caller: Caller): State<T> {
    var st1 := Enter(st, caller);
    if st.disposed then Leave(st1, caller, true)
    else st1.(generation := st.generation + 1, ready := false, refresher := Fetching(st.generation + 1, caller),
      served := st.requests)
  }

  function Enter<T>(st: State<T>, caller: Caller): State<T> {
    if caller.ByWorker? && caller.id in st.workers && st.workers[caller.id].Wanting?
    then st.(workers := st.workers[caller.id := Refreshing(st.workers[caller.id].retry)])
    else st
  }

  /** `RefreshSnapshot` returns: nil, or the error that makes a worker retry or give up. */
  function Leave<T>(st: State<T>, caller: Caller, ok: bool): State<T> {
    var st1 := st.(refresher := Idle);
    if caller.ByWorker? && caller.id in st.workers && st.workers[caller.id].Refreshing?
    then st1.(workers := st.workers[caller.id := if ok then Top else if st.workers[caller.id].retry then Failing
      else Pausing])
    else st1
  }

  function FetchReturned<T>(st: State<T>, ok: bool): State<T>
    requires st.refresher.Fetching?
  {
    var caller := st.refresher.caller;
    if !ok then Leave(SetErr(st), caller, false)
    else if st.disposed || st.refresher.generation != st.generation then Leave(st, caller, true)
    else st.(pending := [], refresher := Merging(st.refresher.generation, caller, st.pending))
  }

  /** The snapshot callback, or the live callback of the drain loop, returns. */
  function MergeReturned<T>(st: State<T>, count: nat): State<T>
    requires st.refresher.Merging? && count <= |st.refresher.batch|
  {
    st.(applied := st.applied + st.refresher.batch[..count],
      refresher := Draining(st.refresher.generation, st.refresher.caller))
  }

  /** The callback of a merge panics. */
  function MergePanicked<T>(st: State<T>, count: nat): State<T>
    requires st.refresher.Merging? && count <= |st.refresher.batch|
  {
    Leave(FailClosed(st.(applied := st.applied + st.refresher.batch[..count])), st.refresher.caller, false)
  }

  function Drain<T>(st: State<T>): State<T>
    requires st.refresher.Draining?
  {
    var caller := st.refresher.caller;
    if st.disposed || st.refresher.generation != st.generation then Leave(st, caller, true)
    else if st.pending == [] then Leave(st.(ready := true), caller, true)
    else st.(pending := [], refresher := Merging(st.refresher.generation, caller, st.pending))
  }

  function Request<T>(st: State<T>): State<T> {
    if st.disposed then st
    else if st.refreshRun then st.(refreshNext := true, requests := st.requests + 1)
    else st.(refreshNext := true, refreshRun := true, requests := st.requests + 1,
             workers := st.workers[st.nextWorker := Top], nextWorker := st.nextWorker + 1)
  }

  function WorkerTop<T>(st: State<T>, id: WorkerId): State<T>
    requires id in st.workers
  {
    if st.disposed || !st.refreshNext then st.(refreshRun := false, workers := st.workers - {id})
    else st.(refreshNext := false, workers := st.workers[id := Wanting(false)])
  }

  function WorkerResumes<T>(st: State<T>, id: WorkerId, cancelled: bool): State<T>
    requires id in st.workers
  {
    st.(workers := st.workers[id := if cancelled then Failing else Wanting(true)])
  }

  function WorkerFails<T>(st: State<T>, id: WorkerId): State<T>
    requires id in st.workers
  {
    FailClosed(st.(workers := st.workers - {id}))
  }

  // ---------- Steps ----------

  datatype Event<T> =
    | ReceiveEvent(items: seq<T>)
    | ReadPanickedEvent
    | LiveReturnedEvent(count: nat)
    | BeginEvent(caller: Caller)
    | FetchReturnedEvent(ok: bool)
    | MergeReturnedEvent
    | MergePanickedEvent(count: nat)
    | DrainEvent
    | RequestEvent
    | WorkerTopEvent(id: WorkerId)
    | WorkerResumesEvent(id: WorkerId, cancelled: bool)
    | WorkerFailsEvent(id: WorkerId)
    | TransportErrorEvent
    | FailClosedEvent
    | StopEvent

  predicate At<T>(st: State<T>, id: WorkerId, pc: Worker) {
    id in st.workers && st.workers[id] == pc
  }

  /** Each goroutine takes only the step it is at. */
  predicate Enabled<T>(st: State<T>, e: Event<T>) {
    match e
    case ReceiveEvent(_) => st.stream.Listening?
    case ReadPanickedEvent => st.stream.Listening?
    case LiveReturnedEvent(count) => st.stream.Applying? && count <= |st.stream.batch|
    case BeginEvent(caller) =>
      st.refresher.Idle? && (caller.ByWorker? ==> caller.id in st.workers && st.workers[caller.id].Wanting?)
    case FetchReturnedEvent(_) => st.refresher.Fetching?
    case MergeReturnedEvent => st.refresher.Merging?
    case MergePanickedEvent(count) => st.refresher.Merging? && count <= |st.refresher.batch|
    case DrainEvent => st.refresher.Draining?
    case WorkerTopEvent(id) => At(st, id, Top)
    case WorkerResumesEvent(id, _) => At(st, id, Pausing)
    case WorkerFailsEvent(id) => At(st, id, Failing)
    case _ => true
  }

  function Step<T>(st: State<T>, e: Event<T>): State<T>
    requires Enabled(st, e)
  {
    match e
    case ReceiveEvent(items) => Receive(st, items)
    case ReadPanickedEvent => FailClosed(st)
    case LiveReturnedEvent(count) => LiveReturned(st, count)
    case BeginEvent(caller) => BeginRefresh(st, caller)
    case FetchReturnedEvent(ok) => FetchReturned(st, ok)
    case MergeReturnedEvent => MergeReturned(st, |st.refresher.batch|)
    case MergePanickedEvent(count) => MergePanicked(st, count)
    case DrainEvent => Drain(st)
    case RequestEvent => Request(st)
    case WorkerTopEvent(id) => WorkerTop(st, id)
    case WorkerResumesEvent(id, cancelled) => WorkerResumes(st, id, cancelled)
    case WorkerFailsEvent(id) => WorkerFails(st, id)
    case TransportErrorEvent => SetErr(st)
    case FailClosedEvent => FailClosed(st)
    case StopEvent => Stop(st)
  }

  // ---------- The invariant ----------

  function InLive<T>(st: State<T>): seq<T> {
    if st.stream.Applying? then st.stream.batch else []
  }

  function InMerge<T>(st: State<T>): seq<T> {
    if st.refresher.Merging? then st.refresher.batch else []
  }

  /** What was taken from the pending buffer or the stream, applied or being applied. */
  function Taken<T>(st: State<T>): seq<T> {
    st.applied + InLive(st) + InMerge(st)
  }

  /** Every publication received is in exactly one place, in order. */
  ghost predicate Accounted<T>(st: State<T>) {
    && Taken(st) <= st.received
    && (!st.disposed ==> st.received == Taken(st) + st.pending)
    && (st.disposed ==> st.pending == [])
    && (st.stream.Applying? ==> st.pending == [] && InMerge(st) == [])
    && (st.ready && !st.disposed ==> st.pending == [] && st.refresher.Idle?)
    && 0 <= |st.pending| <= st.maxBuffered
  }

  function GenerationOf<T>(r: Refresher<T>): Option<int> {
    match r
    case Idle => None
    case Fetching(g, _) => Some(g)
    case Merging(g, _, _) => Some(g)
    case Draining(g, _) => Some(g)
  }

  function CallerOf<T>(r: Refresher<T>): Caller {
    match r
    case Idle => ByOther
    case Fetching(_, caller) => caller
    case Merging(_, caller, _) => caller
    case Draining(_, caller) => caller
  }

  /** The refresher's generation is the current one unless the stream is over. */
  ghost predicate Dated<T>(st: State<T>) {
    GenerationOf(st.refresher).Some? && !st.disposed ==> GenerationOf(st.refresher).value == st.generation
  }

  /** The worker spawned last is still there. */
  predicate Working<T>(st: State<T>) {
    st.nextWorker > 0 && st.nextWorker - 1 in st.workers
  }

  /** The worker has taken the latest requests and is about to refresh for them. */
  predicate Answering<T>(st: State<T>) {
    Working(st) && st.workers[st.nextWorker - 1] == Wanting(false)
  }

  /**
   At most one worker, the one spawned last; while a refresh is due it exists; requests not yet served are
   known to it.
   */
  ghost predicate SingleFlight<T>(st: State<T>) {
    && (forall i :: i in st.workers ==> i == st.nextWorker - 1 && st.refreshRun)
    && (!st.disposed && st.refreshRun ==> Working(st))
    && (!st.disposed && st.refreshNext ==> st.refreshRun)
    && (forall i :: i in st.workers ==> (st.workers[i].Refreshing? <==> CallerOf(st.refresher) == ByWorker(i)))
    && (CallerOf(st.refresher).ByWorker? ==> CallerOf(st.refresher).id in st.workers)
    && st.served <= st.requests
    && (!st.disposed && st.served < st.requests ==> st.refreshNext || Answering(st))
  }

  ghost predicate Inv<T>(st: State<T>) {
    st.maxBuffered > 0 && Accounted(st) && Dated(st) && SingleFlight(st)
  }

  // ---------- Every step keeps it ----------

  lemma ReceiveAccounted<T>(st: State<T>, items: seq<T>)
    requires Accounted(st) && st.stream.Listening?
    ensures Accounted(Receive(st, items))
  {
    if !st.disposed {
      assert st.applied + InLive(st) == st.applied && st.applied + [] == st.applied;
      assert Taken(st) + st.pending + items == Taken(st) + (st.pending + items);
      if st.ready { assert st.applied + items + [] == st.applied + items; }
    }
  }

  lemma LiveAccounted<T>(st: State<T>, count: nat)
    requires Accounted(st) && st.stream.Applying? && count <= |st.stream.batch|
    ensures Accounted(LiveReturned(st, count))
  {
    var batch := st.stream.batch;
    assert batch == batch[..count] + batch[count..];
    assert st.applied + batch + [] == st.applied + batch;
    assert st.applied + batch[..count] + [] + [] == st.applied + batch[..count];
    assert st.applied + batch == st.applied + batch[..count] + batch[count..];
    if count == |batch| { assert batch[..count] == batch; }
  }

  lemma MergeAccounted<T>(st: State<T>, count: nat)
    requires Accounted(st) && st.refresher.Merging? && count <= |st.refresher.batch|
    ensures count == |st.refresher.batch| ==> Accounted(MergeReturned(st, count))
    ensures Accounted(MergePanicked(st, count))
  {
    hide Accounted;
    if count == |st.refresher.batch| { MergeReturnedAccounted(st, count); }
    MergePanickedAccounted(st, count);
  }

  lemma MergeReturnedAccounted<T>(st: State<T>, count: nat)
    requires Accounted(st) && st.refresher.Merging? && count == |st.refresher.batch|
    ensures Accounted(MergeReturned(st, count))
  {
    MergeMoves(st, count);
  }

  lemma MergePanickedAccounted<T>(st: State<T>, count: nat)
    requires Accounted(st) && st.refresher.Merging? && count <= |st.refresher.batch|
    ensures Accounted(MergePanicked(st, count))
  {
    MergeMoves(st, count);
  }

  lemma FetchAccounted<T>(st: State<T>, ok: bool)
    requires Accounted(st) && Dated(st) && st.refresher.Fetching?
    ensures Accounted(FetchReturned(st, ok))
  {
    BufferTaken(st);
  }

  lemma DrainAccounted<T>(st: State<T>)
    requires Accounted(st) && Dated(st) && st.refresher.Draining?
    ensures Accounted(Drain(st))
  {
    BufferTaken(st);
  }

  lemma StepAccounted<T>(st: State<T>, e: Event<T>)
    requires Accounted(st) && Dated(st) && Enabled(st, e)
    ensures Accounted(Step(st, e))
  {
    match e {
      case ReceiveEvent(items) => ReceiveAccounted(st, items);
      case LiveReturnedEvent(count) => LiveAccounted(st, count);
      case MergeReturnedEvent => MergeAccounted(st, |st.refresher.batch|);
      case MergePanickedEvent(count) => MergeAccounted(st, count);
      case FetchReturnedEvent(ok) => FetchAccounted(st, ok);
      case DrainEvent => DrainAccounted(st);
      case _ =>
    }
  }

  /** Taking the pending buffer moves it, whole and in order, into the merge. */
  lemma BufferTaken<T>(st: State<T>)
    requires Accounted(st) && !st.refresher.Merging?
    ensures !st.disposed ==> st.received == st.applied + InLive(st) + st.pending + []
  {
  }

  lemma MergeMoves<T>(st: State<T>, count: nat)
    requires Accounted(st) && st.refresher.Merging? && count <= |st.refresher.batch|
    ensures st.applied + st.refresher.batch[..count] + InLive(st) + [] <= Taken(st)
    ensures count == |st.refresher.batch| ==> st.applied + st.refresher.batch[..count] + InLive(st) + [] == Taken(st)
  {
    var batch := st.refresher.batch;
    assert batch == batch[..count] + batch[count..];
    if st.stream.Applying? {
      assert batch == [] && st.applied + [] + InLive(st) + [] == Taken(st);
    } else {
      assert st.applied + [] + batch == st.applied + batch[..count] + batch[count..];
    }
  }

  lemma StepDated<T>(st: State<T>, e: Event<T>)
    requires Dated(st) && Enabled(st, e)
    ensures Dated(Step(st, e))
  {
  }

  lemma BeginSingleFlight<T>(st: State<T>, caller: Caller)
    requires SingleFlight(st) && Enabled(st, BeginEvent(caller))
    ensures SingleFlight(BeginRefresh(st, caller))
  {
  }

  lemma LeaveSingleFlight<T>(st: State<T>, st': State<T>, ok: bool)
    requires SingleFlight(st) && !st.refresher.Idle?
    requires st' == Leave(st, CallerOf(st.refresher), ok)
    ensures SingleFlight(st')
  {
  }

  lemma RequestSingleFlight<T>(st: State<T>)
    requires SingleFlight(st)
    ensures SingleFlight(Request(st))
  {
  }

  lemma WorkerSingleFlight<T>(st: State<T>, e: Event<T>, id: WorkerId)
    requires SingleFlight(st) && Enabled(st, e) && (e.WorkerTopEvent? || e.WorkerResumesEvent? || e.WorkerFailsEvent?)
      && e.id == id
    ensures SingleFlight(Step(st, e))
  {
  }

  /** The worker and what it knows are as they were. */
  lemma QuietSingleFlight<T>(st: State<T>, st': State<T>)
    requires SingleFlight(st) && st'.workers == st.workers && st'.nextWorker == st.nextWorker
    requires st'.refreshRun == st.refreshRun && st'.refreshNext == st.refreshNext
    requires st'.requests == st.requests && st'.served == st.served
    requires CallerOf(st'.refresher) == CallerOf(st.refresher) && (st.disposed ==> st'.disposed)
    ensures SingleFlight(st')
  {
  }

  lemma StepSingleFlight<T>(st: State<T>, e: Event<T>)
    requires SingleFlight(st) && Enabled(st, e)
    ensures SingleFlight(Step(st, e))
  {
    hide SingleFlight, Leave, BeginRefresh, Request, WorkerTop, WorkerResumes, WorkerFails;
    var caller := CallerOf(st.refresher);
    match e {
      case RequestEvent => RequestSingleFlight(st);
      case WorkerTopEvent(id) => WorkerSingleFlight(st, e, id);
      case WorkerResumesEvent(id, _) => WorkerSingleFlight(st, e, id);
      case WorkerFailsEvent(id) => WorkerSingleFlight(st, e, id);
      case BeginEvent(caller) => BeginSingleFlight(st, caller);
      case FetchReturnedEvent(ok) =>
        if !ok {
          QuietSingleFlight(st, SetErr(st));
          LeaveSingleFlight(SetErr(st), Leave(SetErr(st), caller, false), false);
        } else if st.disposed || st.refresher.generation != st.generation {
          LeaveSingleFlight(st, Leave(st, caller, true), true);
        } else {
          QuietSingleFlight(st, Step(st, e));
        }
      case MergePanickedEvent(count) =>
        var st1 := FailClosed(st.(applied := st.applied + st.refresher.batch[..count]));
        QuietSingleFlight(st, st1);
        LeaveSingleFlight(st1, Leave(st1, caller, false), false);
      case DrainEvent =>
        if st.disposed || st.refresher.generation != st.generation {
          LeaveSingleFlight(st, Leave(st, caller, true), true);
        } else if st.pending == [] {
          QuietSingleFlight(st, st.(ready := true));
          LeaveSingleFlight(st.(ready := true), Leave(st.(ready := true), caller, true), true);
        } else {
          QuietSingleFlight(st, Step(st, e));
        }
      case _ => QuietSingleFlight(st, Step(st, e));
    }
  }

  lemma StepKeeps<T>(st: State<T>, e: Event<T>)
    requires Inv(st) && Enabled(st, e)
    ensures Inv(Step(st, e))
  {
    StepAccounted(st, e);
    StepDated(st, e);
    StepSingleFlight(st, e);
  }
}
