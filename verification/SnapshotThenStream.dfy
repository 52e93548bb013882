/**
 The coordinator as the object it is: each method is one section under its
 mutex, proved to be the step of `SnapshotProtocol` it stands for. Local
 variables that live across sections are arguments.
 */
module SnapshotThenStream {
  import opened Basics
  import opened SnapshotProtocol
  import P = SnapshotProtocol

  datatype Taking<T> = Over | Batch(items: seq<T>) | Done

  class SnapshotThenStream<T> {
    const maxBuffered: int
    var ready: bool
    var disposed: bool
    var generation: int
    var pending: seq<T>
    var refreshRun: bool
    var refreshNext: bool
    ghost var stream: Stream<T>
    ghost var refresher: Refresher<T>
    ghost var workers: map<WorkerId, Worker>
    ghost var nextWorker: WorkerId
    ghost var received: seq<T>
    ghost var applied: seq<T>
    ghost var requests: nat
    ghost var served: nat

    ghost function Model(): State<T>
      reads this
    {
      State(maxBuffered, ready, disposed, generation, pending, refreshRun, refreshNext, stream, refresher, workers,
        nextWorker,
            received, applied, requests, served)
    }

    constructor (maxBuffered: int)
      ensures Model() == Initial(maxBuffered) && Inv(Model())
    {
      this.maxBuffered := if maxBuffered <= 0 then 200 else maxBuffered;
      ready, disposed, generation, pending, refreshRun, refreshNext := false, false, 0, [], false, false;
      stream, refresher, workers, nextWorker, received, applied, requests, served := Listening, Idle, map[], 0, [],
        [], 0, 0;
    }

    /** `handlePublication` after the publication was read: dropped, buffered, or to be applied live. */
    method Receive(items: seq<T>) returns (live: bool)
      requires Inv(Model()) && stream.Listening?
      modifies this
      ensures Model() == P.Receive(old(Model()), items) && Inv(Model())
      ensures live <==> !old(disposed) && old(ready) && items != []
    {
      StepKeeps(Model(), ReceiveEvent(items));
      if items == [] || disposed {
        return false;
      }
      received := received + items;
      if !ready {
        if |pending| + |items| > maxBuffered {
          pending, ready, disposed, generation := [], false, true, generation + 1;
          return false;
        }
        pending := pending + items;
        return false;
      }
      stream := Applying(items);
      return true;
    }

    /** The live callback returned, or panicked after `count` items. */
    method LiveReturned(ghost count: nat, panicked: bool)
      requires Inv(Model()) && stream.Applying? && count <= |stream.batch| && (panicked <==> count < |stream.batch|)
      modifies this
      ensures Model() == P.LiveReturned(old(Model()), count) && Inv(Model())
    {
      StepKeeps(Model(), LiveReturnedEvent(count));
      applied, stream := applied + stream.batch[..count], Listening;
      if panicked {
        FailClosed();
      }
    }

    /** The first section of `RefreshSnapshot`: the generation it will compare with, unless the stream is over. */
    method BeginRefresh(ghost caller: Caller) returns (started: Option<int>)
      requires Inv(Model()) && Enabled(Model(), BeginEvent(caller))
      modifies this
      ensures Model() == P.BeginRefresh(old(Model()), caller) && Inv(Model())
      ensures started == if old(disposed) then None else Some(generation)
    {
      hide Accounted, Dated, SingleFlight;
      StepKeeps(Model(), BeginEvent(caller));
      workers := Enter(Model(), caller).workers;
      if disposed {
        workers := Leave(Model(), caller, true).workers;
        return None;
      }
      generation, ready := generation + 1, false;
      refresher, served := Fetching(generation, caller), requests;
      started := Some(generation);
    }

    method FetchFailed()
      requires Inv(Model()) && refresher.Fetching?
      modifies this
      ensures Model() == FetchReturned(old(Model()), false) && Inv(Model())
    {
      StepKeeps(Model(), FetchReturnedEvent(false));
      ready := false;
      workers, refresher := Leave(Model(), CallerOf(refresher), false).workers, Idle;
    }

    /** The section after a successful fetch: what was buffered meanwhile, to be merged with the snapshot. */
    method TakeBuffered(started: int) returns (r: Taking<T>)
      requires Inv(Model()) && refresher.Fetching? && refresher.generation == started
      modifies this
      ensures Model() == FetchReturned(old(Model()), true) && Inv(Model())
      ensures r == if old(disposed) then Over else Batch(old(pending))
    {
      StepKeeps(Model(), FetchReturnedEvent(true));
      if disposed || started != generation {
        workers, refresher := Leave(Model(), CallerOf(refresher), true).workers, Idle;
        return Over;
      }
      r := Batch(pending);
      refresher := Merging(started, CallerOf(refresher), pending);
      pending := [];
    }

    /** The callback that merges a batch returned, or panicked after `count` items. */
    method MergeReturned(ghost count: nat, panicked: bool)
      requires Inv(Model()) && refresher.Merging? && count <= |refresher.batch|
        && (!panicked ==> count == |refresher.batch|)
      modifies this
      ensures Model() == (if panicked then MergePanicked(old(Model()), count)
        else P.MergeReturned(old(Model()), count)) && Inv(Model())
    {
      ghost var st := Model();
      StepKeeps(st, if panicked then MergePanickedEvent(count) else MergeReturnedEvent);
      applied := applied + refresher.batch[..count];
      if panicked {
        FailClosed();
        workers, refresher := Leave(Model(), CallerOf(st.refresher), false).workers, Idle;
      } else {
        refresher := Draining(st.refresher.generation, CallerOf(st.refresher));
      }
    }

    /** One turn of the drain loop: ready exactly when nothing is pending, in the section that saw it. */
    method Drain(started: int) returns (r: Taking<T>)
      requires Inv(Model()) && refresher.Draining? && refresher.generation == started
      modifies this
      ensures Model() == P.Drain(old(Model())) && Inv(Model())
      ensures r == if old(disposed) then Over else if old(pending) == [] then Done else Batch(old(pending))
      ensures r.Done? ==> ready
    {
      StepKeeps(Model(), DrainEvent);
      if disposed || started != generation {
        workers, refresher := Leave(Model(), CallerOf(refresher), true).workers, Idle;
        return Over;
      }
      if |pending| == 0 {
        ready := true;
        workers, refresher := Leave(Model(), CallerOf(refresher), true).workers, Idle;
        return Done;
      }
      r := Batch(pending);
      refresher := Merging(started, CallerOf(refresher), pending);
      pending := [];
    }

    /** `RequestSnapshotRefresh`: whether the caller is to start the worker. */
    method Request() returns (spawn: bool)
      requires Inv(Model())
      modifies this
      ensures Model() == P.Request(old(Model())) && Inv(Model())
      ensures spawn <==> nextWorker == old(nextWorker) + 1
    {
      StepKeeps(Model(), RequestEvent);
      if disposed {
        return false;
      }
      refreshNext, requests := true, requests + 1;
      if refreshRun {
        return false;
      }
      refreshRun := true;
      workers, nextWorker := workers[nextWorker := Top], nextWorker + 1;
      return true;
    }

    /** The top of the worker's loop: whether it goes on. */
    method WorkerTop(ghost id: WorkerId) returns (goesOn: bool)
      requires Inv(Model()) && At(Model(), id, Top)
      modifies this
      ensures Model() == P.WorkerTop(old(Model()), id) && Inv(Model())
      ensures goesOn <==> id in workers
    {
      StepKeeps(Model(), WorkerTopEvent(id));
      if disposed || !refreshNext {
        refreshRun := false;
        workers := workers - {id};
        return false;
      }
      refreshNext := false;
      workers := workers[id := Wanting(false)];
      return true;
    }

    method FailClosed()
      modifies this`ready, this`disposed, this`generation, this`pending
      ensures Model() == P.FailClosed(old(Model()))
    {
      if disposed {
        return;
      }
      ready, disposed, generation, pending := false, true, generation + 1, [];
    }

    method Stop()
      requires Inv(Model())
      modifies this
      ensures Model() == P.Stop(old(Model())) && Inv(Model())
    {
      StepKeeps(Model(), StopEvent);
      disposed, generation, pending := true, generation + 1, [];
    }
  }
}
