/** What the snapshot-then-stream coordinator guarantees over every interleaving. */
module SnapshotTheorems {
  import opened Basics
  import opened SnapshotProtocol

  /** An interleaving: the states it passes through and the step between each two. */
  ghost predicate Execution<T>(states: seq<State<T>>, events: seq<Event<T>>, maxBuffered: int) {
    && |states| == |events| + 1
    && states[0] == Initial(maxBuffered)
    && (forall i :: 0 <= i < |events| ==> Follows(states, events, i))
  }

  ghost predicate Follows<T>(states: seq<State<T>>, events: seq<Event<T>>, i: nat)
    requires |states| == |events| + 1 && i < |events|
  {
    Enabled(states[i], events[i]) && states[i + 1] == Step(states[i], events[i])
  }

  lemma InitialInv<T>(maxBuffered: int)
    ensures Inv(Initial<T>(maxBuffered))
  {
  }

  lemma {:induction false} ExecutionInv<T>(states: seq<State<T>>, events: seq<Event<T>>, maxBuffered: int, i: nat)
    requires Execution(states, events, maxBuffered) && i < |states|
    ensures Inv(states[i])
    decreases i
  {
    InitialInv<T>(maxBuffered);
    hide Inv, Step, Enabled, Initial;
    if i > 0 {
      ExecutionInv(states, events, maxBuffered, i - 1);
      assert Follows(states, events, i - 1);
      StepKeeps(states[i - 1], events[i - 1]);
    }
  }

  lemma FailingCounts<T>(st: State<T>, e: Event<T>)
    requires Enabled(st, e)
    requires e.ReceiveEvent? || e.ReadPanickedEvent? || e.LiveReturnedEvent? || e.MergePanickedEvent?
      || e.FailClosedEvent? || e.WorkerFailsEvent?
    ensures Step(st, e).requests == st.requests && Step(st, e).served == st.served
  {
  }

  lemma StepCounts<T>(st: State<T>, e: Event<T>)
    requires Inv(st) && Enabled(st, e)
    ensures var st' := Step(st, e);
      && st.requests <= st'.requests && st.served <= st'.served
      && (st.served < st'.served ==> e.BeginEvent? && st'.served == st.requests)
  {
    assert st.served <= st.requests;
    hide Inv, FailClosed, Receive;
    if e.ReceiveEvent? || e.ReadPanickedEvent? || e.LiveReturnedEvent? || e.MergePanickedEvent? || e.FailClosedEvent?
      || e.WorkerFailsEvent? {
      FailingCounts(st, e);
    }
  }

  /** One step appends to the histories. */
  lemma StepAppends<T>(st: State<T>, e: Event<T>)
    requires Inv(st) && Enabled(st, e)
    ensures st.received <= Step(st, e).received && st.applied <= Step(st, e).applied
  {
    if e.ReceiveEvent? { assert st.received <= st.received + e.items; }
    if e.MergeReturnedEvent? { assert st.applied <= st.applied + st.refresher.batch[..|st.refresher.batch|]; }
    if e.MergePanickedEvent? { assert st.applied <= st.applied + st.refresher.batch[..e.count]; }
    if e.LiveReturnedEvent? { assert st.applied <= st.applied + st.stream.batch[..e.count]; }
  }

  /** Once the stream is over a step applies only what was already taken. */
  lemma StepEnded<T>(st: State<T>, e: Event<T>)
    requires Inv(st) && Enabled(st, e) && st.disposed
    ensures Step(st, e).disposed && Taken(Step(st, e)) <= Taken(st)
  {
    match e {
      case LiveReturnedEvent(count) => LiveMoves(st, count);
      case MergeReturnedEvent => MergeMoves(st, |st.refresher.batch|);
      case MergePanickedEvent(count) => MergeMoves(st, count);
      case _ =>
    }
  }

  lemma LiveMoves<T>(st: State<T>, count: nat)
    requires Accounted(st) && st.stream.Applying? && count <= |st.stream.batch|
    ensures st.applied + st.stream.batch[..count] + [] + InMerge(st) <= Taken(st)
  {
    var batch := st.stream.batch;
    assert batch == batch[..count] + batch[count..];
    assert st.applied + batch + [] == st.applied + batch[..count] + batch[count..];
    assert st.applied + batch[..count] + [] + [] == st.applied + batch[..count];
  }

  lemma CountsAt<T>(states: seq<State<T>>, events: seq<Event<T>>, maxBuffered: int, k: nat)
    requires Execution(states, events, maxBuffered) && k < |events|
    ensures states[k].requests <= states[k + 1].requests && states[k].served <= states[k + 1].served
    ensures states[k].served < states[k + 1].served ==>
      events[k].BeginEvent? && states[k + 1].served == states[k].requests
  {
    ExecutionInv(states, events, maxBuffered, k);
    assert Follows(states, events, k);
    StepCounts(states[k], events[k]);
  }

  lemma {:induction false} HistoriesGrow<T>(states: seq<State<T>>, events: seq<Event<T>>, maxBuffered: int, i: nat,
      j: nat)
    requires Execution(states, events, maxBuffered) && i <= j < |states|
    ensures states[i].received <= states[j].received && states[i].applied <= states[j].applied
    ensures states[i].disposed ==> states[j].disposed && Taken(states[j]) <= Taken(states[i])
    ensures states[i].requests <= states[j].requests && states[i].served <= states[j].served
    decreases j
  {
    hide Inv, Step, Enabled, Initial, Taken;
    if i < j {
      HistoriesGrow(states, events, maxBuffered, i, j - 1);
      ExecutionInv(states, events, maxBuffered, j - 1);
      CountsAt(states, events, maxBuffered, j - 1);
      assert Follows(states, events, j - 1);
      StepAppends(states[j - 1], events[j - 1]);
      if states[j - 1].disposed { StepEnded(states[j - 1], events[j - 1]); }
    }
  }

  /**
   Whatever the interleaving of worker, refreshers, failed fetches and retries:
   the applied publications are a prefix of those received, in order and each
   once; while the stream lives, everything received is applied, in the hands
   of one callback, or pending; when ready, only the live batch is not applied.
   */
  lemma AppliedExactlyOnce<T>(states: seq<State<T>>, events: seq<Event<T>>, maxBuffered: int, i: nat)
    requires Execution(states, events, maxBuffered) && i < |states|
    ensures var st := states[i];
      && st.applied <= st.received
      && (!st.disposed ==> st.received == st.applied + InLive(st) + InMerge(st) + st.pending)
      && (InLive(st) == [] || InMerge(st) == [])
      && (st.ready ==> st.pending == [])
      && (st.ready && !st.disposed ==> st.received == st.applied + InLive(st))
      && |st.pending| <= st.maxBuffered
  {
    ExecutionInv(states, events, maxBuffered, i);
    var st := states[i];
    assert st.applied <= Taken(st);
    assert st.applied + InLive(st) + [] + [] == st.applied + InLive(st);
  }

  /** After the stream is over, no publication is applied but those a callback already held. */
  lemma NothingAfterTheEnd<T>(states: seq<State<T>>, events: seq<Event<T>>, maxBuffered: int, i: nat, j: nat)
    requires Execution(states, events, maxBuffered) && i <= j < |states| && states[i].disposed
    ensures states[j].disposed && states[j].applied <= states[i].applied + InLive(states[i]) + InMerge(states[i])
  {
    HistoriesGrow(states, events, maxBuffered, i, j);
    assert states[j].applied <= Taken(states[j]);
  }

  /** A refresh that finds another generation finds a stream that is over. */
  lemma MismatchMeansDisposed<T>(states: seq<State<T>>, events: seq<Event<T>>, maxBuffered: int, i: nat)
    requires Execution(states, events, maxBuffered) && i < |states|
    requires GenerationOf(states[i].refresher).Some? && GenerationOf(states[i].refresher).value != states[i].generation
    ensures states[i].disposed
  {
    ExecutionInv(states, events, maxBuffered, i);
  }

  /**
   With any number of callers at most one worker runs; on a living stream it runs while a request is unserved,
   and nothing but the refresh mutex makes it wait.
   */
  lemma OneWorkerRuns<T>(states: seq<State<T>>, events: seq<Event<T>>, maxBuffered: int, i: nat)
    requires Execution(states, events, maxBuffered) && i < |states|
    ensures var st := states[i];
      && (forall a, b :: a in st.workers && b in st.workers ==> a == b)
      && (!st.disposed && st.served < st.requests ==> Working(st) && CanMove(st, st.nextWorker - 1))
  {
    ExecutionInv(states, events, maxBuffered, i);
  }

  /** The worker, or whoever holds the refresh mutex, has a step to take. */
  predicate CanMove<T>(st: State<T>, id: WorkerId) {
    && id in st.workers
    && match st.workers[id]
       case Top => Enabled(st, WorkerTopEvent(id))
       case Wanting(_) => Enabled(st, BeginEvent(ByWorker(id))) || !st.refresher.Idle?
       case Refreshing(_) => !st.refresher.Idle? && CallerOf(st.refresher) == ByWorker(id)
       case Pausing => Enabled(st, WorkerResumesEvent(id, false))
       case Failing => Enabled(st, WorkerFailsEvent(id))
  }

  /** Between two points where the served count passed `n`, a refresh started that knew of all `n` requests. */
  lemma {:induction false} ServedByABegin<T>(states: seq<State<T>>, events: seq<Event<T>>, maxBuffered: int, i: nat,
      j: nat, n: nat)
    returns (k: nat)
    requires Execution(states, events, maxBuffered) && i <= j < |states|
    requires states[i].served < n <= states[j].served
    ensures i <= k < j && events[k].BeginEvent? && states[k].requests >= n
    decreases j
  {
    assert i < j;
    CountsAt(states, events, maxBuffered, j - 1);
    if states[j - 1].served >= n {
      k := ServedByABegin(states, events, maxBuffered, i, j - 1, n);
    } else {
      k := j - 1;
    }
  }

  /** No lost request: once the worker has stopped on a stream not over, a refresh has started after every request. */
  lemma NoLostRequest<T>(states: seq<State<T>>, events: seq<Event<T>>, maxBuffered: int, i: nat, j: nat)
      returns (k: nat)
    requires Execution(states, events, maxBuffered) && i < j < |states|
    requires events[i].RequestEvent? && !states[j].disposed && !Working(states[j])
    ensures i < k < j && events[k].BeginEvent? && states[k].requests >= states[i + 1].requests
  {
    ExecutionInv(states, events, maxBuffered, i);
    ExecutionInv(states, events, maxBuffered, j);
    if states[i].disposed { HistoriesGrow(states, events, maxBuffered, i, j); }
    HistoriesGrow(states, events, maxBuffered, i + 1, j);
    assert Follows(states, events, i);
    assert states[i + 1].requests == states[i].requests + 1 && states[i + 1].served == states[i].served;
    k := ServedByABegin(states, events, maxBuffered, i + 1, j, states[i + 1].requests);
  }
}
