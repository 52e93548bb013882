/**
 The private order stream as the object it is: maps, records and timers
 updated in place by its handlers, loops over consumers and subscriptions in
 whatever order the map yields. Every handler is proved to do exactly what the
 transition system of `OrderStreamModel` says, and to keep its invariant.

 The public methods are the sections run under the mutex by callers,
 goroutines, timers and the reader; the others are called inside a section and
 rely on ownership alone.
 */
module PrivateOrderStream {
  import opened Basics
  import M = OrderStreamModel
  import opened OrderStreamModel
  import opened OrderStreamInvariant
  import opened OrderStreamHelpers
  import opened OrderStreamConsumers
  import opened OrderStreamHandlers
  import opened OrderStreamFrames
  import opened OrderStreamControl
  import opened OrderStreamSteps
  import opened OrderStreamOwned

  class PrivateOrderStream {
    const maxQueue: int
    var subs: map<Account, SubRef>
    var recs: map<SubRef, Sub>
    var consumers: map<ConsumerRef, Consumer>
    var pending: map<RequestId, Request>
    var bySub: map<ServerSub, SubRef>
    var unsubscribing: set<RequestId>
    var sess: Option<int>
    var conn: Option<int>
    var connecting: bool
    var authSent: bool
    var reconnectAttempt: int
    var reconnectTimer: Option<int>
    var requestSeq: int
    var sessSeq: int
    var connSeq: int
    var timerSeq: int
    ghost var tasks: set<Task>
    ghost var sent: map<RequestId, Subscribe>

    ghost function Model(): State
      reads this
    {
      State(maxQueue, subs, recs, consumers, pending, bySub, unsubscribing, sess, conn, connecting, authSent,
            reconnectAttempt, reconnectTimer, requestSeq, sessSeq, connSeq, timerSeq, tasks, sent)
    }

    constructor (maxQueue: int)
      ensures Model() == InitialState(if maxQueue <= 0 then 1000 else maxQueue)
      ensures Inv(Model())
    {
      this.maxQueue := if maxQueue <= 0 then 1000 else maxQueue;
      subs, recs, consumers, pending, bySub, unsubscribing := map[], map[], map[], map[], map[], {};
      sess, conn, connecting, authSent, reconnectAttempt, reconnectTimer := None, None, false, false, 0, None;
      requestSeq, sessSeq, connSeq, timerSeq, tasks, sent := 0, 0, 0, 0, {}, map[];
      new;
      InitialInv(this.maxQueue);
    }

    // ---------- Consumers ----------

    /** Closing a channel twice would panic: the consumer's must be open. */
    method Finish(c: ConsumerRef, err: Option<Failure>)
      requires c in consumers && !consumers[c].chClosed
      modifies this`consumers
      ensures consumers == old(consumers)[c := Finished(old(consumers)[c], err)]
    {
      var k := consumers[c];
      k := k.(closed := true, err := if k.err.None? then err else k.err);
      consumers := consumers[c := k.(chClosed := true)];
    }

    method Offer(r: SubRef, c: ConsumerRef, event: StreamEvent)
      requires Sound(Model()) && r in recs && c in consumers && consumers[c].owner == r
      modifies this
      ensures Model() == M.Offer(old(Model()), r, {c}, event) && Sound(Model())
    {
      ghost var st := Model();
      assert consumers[c].chClosed ==> consumers[c].closed;
      hide Sound, M.Offer;
      OfferStaysOwned(st, r, {c}, event);
      var k := consumers[c];
      if k.closed {
        OfferToClosed(st, r, c, event);
        return;
      }
      if |k.log| - k.read < maxQueue {
        consumers := consumers[c := k.(log := k.log + [event])];
        OfferWithRoom(st, r, c, event);
        return;
      }
      Overflow(r, c, event);
    }

    /** The queue is full: the consumer is dropped, and with the last one the subscription. */
    method Overflow(r: SubRef, c: ConsumerRef, event: StreamEvent)
      requires Sound(Model()) && r in recs && c in consumers && consumers[c].owner == r
        && Overflows(maxQueue, consumers[c])
      requires !consumers[c].chClosed
      modifies this
      ensures Model() == M.Offer(old(Model()), r, {c}, event) && Sound(Model())
    {
      ghost var st := Model();
      OfferStaysOwned(st, r, {c}, event);
      OfferToFull(st, r, c, event);
      OfferOnlyOwned(st, r, {c}, event);
      hide Sound, OfferOnly, DroppedBy, M.Teardown, Overflows;
      Expel(r, c, event);
      if recs[r].consumers == {} {
        Teardown(r);
      }
    }

    method Expel(r: SubRef, c: ConsumerRef, ghost event: StreamEvent)
      requires r in recs && c in consumers && !consumers[c].chClosed && Overflows(maxQueue, consumers[c])
      modifies this`recs, this`consumers
      ensures Model() == OfferOnly(old(Model()), r, {c}, event)
    {
      OfferToFull(Model(), r, c, event);
      hide OfferOnly, Finished, Overflows;
      recs := recs[r := recs[r].(consumers := recs[r].consumers - {c})];
      Finish(c, Some(QueueOverflow));
    }

    method Deliver(r: SubRef, event: StreamEvent)
      requires Sound(Model()) && r in recs
      modifies this
      ensures Model() == M.Deliver(old(Model()), r, event) && Sound(Model())
    {
      ghost var st, all := Model(), recs[r].consumers;
      ghost var done: set<ConsumerRef> := {};
      var todo := recs[r].consumers;
      OfferNone(st, r, event);
      while todo != {}
        invariant done !! todo && done + todo == all
        invariant Offering(st, Model(), r, done, event)
        decreases todo
      {
        var c :| c in todo;
        OfferNext(st, Model(), r, done, c, event);
        Offer(r, c, event);
        todo, done := todo - {c}, done + {c};
      }
      assert done == all;
    }

    method Report(r: SubRef, failure: Failure)
      requires Sound(Model()) && r in recs
      modifies this
      ensures Model() == M.Report(old(Model()), r, failure) && Sound(Model())
    {
      Deliver(r, StreamError(failure));
    }

    /** Takes every consumer out of the subscription and closes it. */
    method FinishConsumers(r: SubRef, err: Option<Failure>)
      requires r in recs && forall c :: c in recs[r].consumers ==> c in consumers && !consumers[c].chClosed
      modifies this`recs, this`consumers
      ensures recs == old(recs)[r := old(recs)[r].(consumers := {})]
      ensures consumers == FinishedIn(old(consumers), old(recs)[r].consumers, err)
    {
      ghost var recs0, consumers0 := recs, consumers;
      ghost var done: set<ConsumerRef> := {};
      var todo := recs[r].consumers;
      assert FinishedIn(consumers0, {}, err) == consumers0;
      hide FinishedIn, Finished;
      assert recs == recs0[r := recs0[r].(consumers := todo)];
      while todo != {}
        invariant done !! todo && done + todo == recs0[r].consumers
        invariant recs == recs0[r := recs0[r].(consumers := todo)]
        invariant consumers == FinishedIn(consumers0, done, err)
        decreases todo
      {
        var c :| c in todo;
        FinishMore(consumers0, done, c, err);
        FinishFirst(r, c, todo, err);
        Patched(recs0, r, recs0[r].(consumers := todo), recs0[r].(consumers := todo - {c}));
        todo, done := todo - {c}, done + {c};
      }
      assert done == recs0[r].consumers && todo == {};
    }

    method FinishFirst(r: SubRef, c: ConsumerRef, todo: set<ConsumerRef>, err: Option<Failure>)
      requires r in recs && recs[r].consumers == todo && c in consumers && !consumers[c].chClosed
      modifies this`recs, this`consumers
      ensures recs == old(recs)[r := old(recs)[r].(consumers := todo - {c})]
      ensures consumers == old(consumers)[c := Finished(old(consumers)[c], err)]
    {
      recs := recs[r := recs[r].(consumers := recs[r].consumers - {c})];
      Finish(c, err);
    }

    // ---------- Ending subscriptions and runs ----------

    method Unsubscribe()
      modifies this`requestSeq, this`unsubscribing
      ensures requestSeq == old(requestSeq) + 1 && unsubscribing == old(unsubscribing) + {requestSeq}
    {
      requestSeq := requestSeq + 1;
      unsubscribing := unsubscribing + {requestSeq};
    }

    method Teardown(r: SubRef)
      requires Sound(Model()) && r in recs
      modifies this
      ensures Model() == M.Teardown(old(Model()), r) && Sound(Model())
    {
      TeardownOwned(Model(), r);
      SoundRoster(Model(), r);
      hide Sound, Rostered, TeardownOne, M.Shutdown;
      if !IsCurrent(subs, recs, r) {
        return;
      }
      Leave(r);
      if subs == map[] {
        Shutdown();
      }
    }

    /** `teardown` up to the test whether any subscription is left. */
    method Leave(r: SubRef)
      requires r in recs && forall c :: c in recs[r].consumers ==> c in consumers && !consumers[c].chClosed
      requires Rostered(subs, recs)
      modifies this
      ensures Model() == TeardownOne(old(Model()), r) && Rostered(subs, recs)
    {
      ghost var subs0, recs0 := subs, recs;
      Forget(r);
      SubsLeft(subs0, recs0, r, recs[r]);
    }

    method Forget(r: SubRef)
      requires r in recs && forall c :: c in recs[r].consumers ==> c in consumers && !consumers[c].chClosed
      modifies this`subs, this`recs, this`consumers, this`bySub, this`requestSeq, this`unsubscribing, this`pending
      ensures subs == old(subs) - {old(recs)[r].account}
      ensures recs == old(recs)[r := old(recs)[r].(consumers := {}, retryTimer := None, ackTimer := None, sub := 0)]
      ensures consumers == FinishedIn(old(consumers), old(recs)[r].consumers, None)
      ensures pending == RequestsBut(old(pending), r)
      ensures if conn.Some? && old(recs)[r].sub != 0
        then requestSeq == old(requestSeq) + 1 && unsubscribing == old(unsubscribing) + {requestSeq}
          && bySub == old(bySub) - {old(recs)[r].sub}
        else requestSeq == old(requestSeq) && unsubscribing == old(unsubscribing) && bySub == old(bySub)
    {
      ghost var recs0 := recs;
      subs := subs - {recs[r].account};
      FinishConsumers(r, None);
      Patched(recs0, r, recs[r], recs[r].(retryTimer := None, ackTimer := None));
      recs := recs[r := recs[r].(retryTimer := None, ackTimer := None)];
      if conn.Some? && recs[r].sub != 0 {
        bySub := bySub - {recs[r].sub};
        Unsubscribe();
      }
      Patched(recs0, r, recs[r], recs[r].(sub := 0));
      recs := recs[r := recs[r].(sub := 0)];
      pending := RequestsBut(pending, r);
    }

    method Detach()
      requires Rostered(subs, recs)
      modifies this`conn, this`authSent, this`pending, this`bySub, this`unsubscribing, this`recs
      ensures Model() == M.Detach(old(Model()))
    {
      hide Rostered, DetachedIn;
      conn, authSent := None, false;
      pending, bySub, unsubscribing := map[], map[], {};
      ForgetServerSubs();
    }

    method ForgetServerSubs()
      requires Rostered(subs, recs)
      modifies this`recs
      ensures recs == DetachedIn(subs, old(recs))
    {
      ghost var recs0 := recs;
      ghost var done: set<SubRef> := {};
      var todo := subs.Values;
      while todo != {}
        invariant done !! todo && done + todo == subs.Values
        invariant PartlyDetached(recs0, recs, done)
        decreases todo
      {
        var r :| r in todo;
        assert r in subs.Values;
        DetachMore(recs0, recs, done, r);
        recs := recs[r := recs[r].(retryTimer := None, ackTimer := None, sub := 0, seqNo := 0, ready := false,
          staging := false, staged := [])];
        todo, done := todo - {r}, done + {r};
      }
      assert done == subs.Values;
      AllDetached(subs, recs0, recs);
    }

    method Shutdown()
      requires Rostered(subs, recs)
      modifies this
      ensures Model() == M.Shutdown(old(Model()))
    {
      Detach();
      reconnectTimer, reconnectAttempt, connecting := None, 0, false;
      sess := None;
    }

    method Terminate(r: SubRef, failure: Failure)
      requires Sound(Model()) && r in recs
      modifies this
      ensures Model() == M.Terminate(old(Model()), r, failure) && Sound(Model())
    {
      if !IsCurrent(subs, recs, r) {
        return;
      }
      Farewell(r, failure);
      Dismiss(r, Some(failure));
      Teardown(r);
    }

    method Farewell(r: SubRef, failure: Failure)
      requires Sound(Model()) && r in recs
      modifies this
      ensures Model() == M.Farewell(old(Model()), r, failure) && Sound(Model())
    {
      Report(r, failure);
      if recs[r].state != SubDisconnected {
        SetState(r, SubDisconnected);
        Deliver(r, Disconnected);
      }
    }

    method Dismiss(r: SubRef, err: Option<Failure>)
      requires Sound(Model()) && r in recs
      modifies this`recs, this`consumers
      ensures Model() == M.FinishConsumers(old(Model()), r, err) && Sound(Model())
    {
      FinishStaysOwned(Model(), r, err);
      FinishConsumers(r, err);
    }

    method SetState(r: SubRef, state: SubState)
      requires Sound(Model()) && r in recs
      modifies this`recs
      ensures Model() == WithState(old(Model()), r, state) && Sound(Model())
    {
      PatchOwned(subs, recs, consumers, r, recs[r].(state := state));
      recs := recs[r := recs[r].(state := state)];
    }

    /** `snapshotSubs`: the subscriptions in the order the map yields them. */
    method SnapshotSubs() returns (order: seq<SubRef>)
      requires Rostered(subs, recs)
      ensures VisitsAll(Model(), order)
    {
      order := [];
      var todo := subs.Values;
      while todo != {}
        invariant todo <= subs.Values && Enumerates(order, subs.Values - todo)
        decreases todo
      {
        var r :| r in todo;
        order, todo := order + [r], todo - {r};
      }
      assert subs.Values - todo == subs.Values;
    }

    method TerminateAll(failure: Failure) returns (ghost order: seq<SubRef>)
      requires Sound(Model())
      modifies this
      ensures VisitsAll(old(Model()), order)
      ensures Model() == M.TerminateAll(old(Model()), failure, order) && Sound(Model())
    {
      ghost var st := Model();
      var all := SnapshotSubs();
      for i := 0 to |all|
        invariant Sound(Model())
        invariant Model() == M.TerminateAll(st, failure, all[..i])
      {
        assert Init(all[..i + 1]) == all[..i];
        Terminate(all[i], failure);
      }
      assert all[..|all|] == all;
      order := all;
    }

    method ReportAll(failure: Failure) returns (ghost order: seq<SubRef>)
      requires Sound(Model())
      modifies this
      ensures VisitsAll(old(Model()), order)
      ensures Model() == M.ReportAll(old(Model()), failure, order) && Sound(Model())
    {
      ghost var st := Model();
      var all := SnapshotSubs();
      for i := 0 to |all|
        invariant Sound(Model())
        invariant Model() == M.ReportAll(st, failure, all[..i])
      {
        assert Init(all[..i + 1]) == all[..i];
        Report(all[i], failure);
      }
      assert all[..|all|] == all;
      order := all;
    }

    // ---------- Goroutines, timers, requests ----------

    method GoSession(task: Task)
      modifies this`tasks
      ensures tasks == if sess.Some? then old(tasks) + {task} else old(tasks)
    {
      if sess.Some? {
        tasks := tasks + {task};
      }
    }

    /** A timer of the current run; none once the run ended. */
    method AfterFunc(conn: int, request: RequestId) returns (timer: Option<Timer>)
      modifies this`timerSeq
      ensures timer == if sess.None? then None else Some(Timer(old(timerSeq), conn, request))
      ensures timerSeq == old(timerSeq) + 1
    {
      timer := if sess.None? then None else Some(Timer(timerSeq, conn, request));
      timerSeq := timerSeq + 1;
    }

    method Open()
      modifies this`connecting, this`tasks
      ensures Model() == M.Open(old(Model()))
    {
      connecting := true;
      if sess.Some? {
        GoSession(ConnectTask(sess.value));
      }
    }

    method ScheduleReconnect()
      modifies this`reconnectAttempt, this`reconnectTimer, this`timerSeq
      ensures Model() == M.ScheduleReconnect(old(Model()))
    {
      reconnectAttempt := reconnectAttempt + 1;
      var timer := AfterFunc(0, 0);
      reconnectTimer := if timer.Some? then Some(timer.value.id) else None;
    }

    method SubscribeServer(conn: int, r: SubRef)
      modifies this`requestSeq, this`pending, this`tasks
      ensures Model() == M.SubscribeServer(old(Model()), conn, r)
    {
      if !IsCurrent(subs, recs, r) {
        return;
      }
      requestSeq := requestSeq + 1;
      pending := pending[requestSeq := Request(RequestSubscribe, r)];
      GoSession(SubscribeTask(conn, r, requestSeq));
    }

    /** Sends the connect token and subscribes every account. */
    method Authenticate(conn: int) returns (ghost order: seq<SubRef>)
      requires Rostered(subs, recs)
      modifies this`authSent, this`requestSeq, this`pending, this`tasks
      ensures VisitsAll(old(Model()), order)
      ensures Model() == SubscribeAll(old(Model()).(authSent := true), conn, order)
    {
      authSent := true;
      ghost var st := Model();
      var all := SnapshotSubs();
      for i := 0 to |all|
        invariant Model() == SubscribeAll(st, conn, all[..i])
      {
        assert Init(all[..i + 1]) == all[..i];
        SubscribeServer(conn, all[i]);
      }
      assert all[..|all|] == all;
      order := all;
    }

    method RetrySubscribe(conn: int, r: SubRef)
      requires r in recs
      modifies this`recs, this`timerSeq
      ensures Model() == M.RetrySubscribe(old(Model()), conn, r)
    {
      ghost var recs0 := recs;
      recs := recs[r := recs[r].(retryTimer := None)];
      Patched(recs0, r, recs[r], recs[r].(retries := recs[r].retries + 1));
      recs := recs[r := recs[r].(retries := recs[r].retries + 1)];
      var timer := AfterFunc(conn, 0);
      Patched(recs0, r, recs[r], recs[r].(retryTimer := timer));
      recs := recs[r := recs[r].(retryTimer := timer)];
    }

    method Resubscribe(conn: int, r: SubRef)
      requires Sound(Model()) && r in recs
      modifies this
      ensures Model() == M.Resubscribe(old(Model()), conn, r) && Sound(Model())
    {
      DropServerSub(r);
      Redial(conn, r);
      NotifyDisconnected(r);
    }

    method DropServerSub(r: SubRef)
      requires Sound(Model()) && r in recs
      modifies this`recs, this`requestSeq, this`bySub, this`unsubscribing
      ensures Model() == M.DropServerSub(old(Model()), r) && Sound(Model())
    {
      DropSound(Model(), r);
      hide Sound;
      Renounce(recs[r].sub);
      recs := recs[r := DroppedRec(recs[r])];
    }

    method Renounce(sid: ServerSub)
      modifies this`requestSeq, this`bySub, this`unsubscribing
      ensures bySub == if sid != 0 then old(bySub) - {sid} else old(bySub)
      ensures requestSeq == if sid != 0 then old(requestSeq) + 1 else old(requestSeq)
      ensures unsubscribing == if sid != 0 then old(unsubscribing) + {requestSeq} else old(unsubscribing)
    {
      if sid != 0 {
        bySub := bySub - {sid};
        Unsubscribe();
      }
    }

    /** The first attempt at once, later ones after a backoff. */
    method Redial(conn: int, r: SubRef)
      requires Sound(Model()) && r in recs
      modifies this`recs, this`timerSeq, this`requestSeq, this`pending, this`tasks
      ensures Model() == M.Redial(old(Model()), conn, r) && Sound(Model())
    {
      hide Sound;
      RedialSound(Model(), conn, r);
      if recs[r].retries > 0 {
        RetrySubscribe(conn, r);
      } else {
        recs := recs[r := recs[r].(retries := 1)];
        SubscribeServer(conn, r);
      }
    }

    method NotifyDisconnected(r: SubRef)
      requires Sound(Model()) && r in recs
      modifies this
      ensures Model() == M.NotifyDisconnected(old(Model()), r) && Sound(Model())
    {
      if recs[r].state == SubConnected {
        SetState(r, SubDisconnected);
        Deliver(r, Disconnected);
      }
    }

    // ---------- Consumer calls ----------

    /** `subscribe`; `c` and `r` are the addresses of the new objects. */
    method Subscribe(account: Account, c: ConsumerRef, r: SubRef)
      requires Inv(Model()) && c !in consumers && r !in recs
      modifies this
      ensures Model() == SubscribeCall(old(Model()), account, c, r) && Inv(Model())
    {
      SubscribeKeeps(Model(), account, c, r);
      InvSound(Model());
      JoinSound(Model(), account, c, r);
      Enlist(account, c, r);
    }

    method Enlist(account: Account, c: ConsumerRef, r: SubRef)
      requires (account in subs ==> subs[account] in recs) && Sound(Join(Model(), account, c, r))
      modifies this
      ensures Model() == SubscribeCall(old(Model()), account, c, r)
    {
      var existing := account in subs;
      Attach(account, c, r);
      if existing {
        CatchUp(subs[account], c);
      } else if conn.Some? && authSent {
        SubscribeServer(conn.value, r);
      } else if conn.None? && !connecting && reconnectTimer.None? {
        Open();
      }
    }

    /** `subscribe` up to the choice between catching up, subscribing and connecting. */
    method Attach(account: Account, c: ConsumerRef, r: SubRef)
      requires account in subs ==> subs[account] in recs
      modifies this`sess, this`sessSeq, this`subs, this`recs, this`consumers
      ensures Model() == Join(old(Model()), account, c, r)
    {
      JoinAssembled(Model(), account, c, r);
      hide Join, Started, Enrolled, Included, NewRec;
      StartRun();
      Enroll(account, r);
      Include(subs[account], c);
    }

    method StartRun()
      modifies this`sess, this`sessSeq
      ensures Model() == Started(old(Model()))
    {
      if sess.None? {
        sessSeq := sessSeq + 1;
        sess := Some(sessSeq);
      }
    }

    method Enroll(account: Account, r: SubRef)
      modifies this`subs, this`recs
      ensures Model() == Enrolled(old(Model()), account, r)
    {
      if account !in subs {
        recs := recs[r := NewRec.(account := account)];
        subs := subs[account := r];
      }
    }

    method Include(r: SubRef, c: ConsumerRef)
      requires r in recs
      modifies this`recs, this`consumers
      ensures Model() == Included(old(Model()), r, c)
    {
      recs := recs[r := recs[r].(consumers := recs[r].consumers + {c})];
      consumers := consumers[c := NewConsumer(r)];
    }

    method CatchUp(r: SubRef, c: ConsumerRef)
      requires Sound(Model()) && r in recs && c in consumers && consumers[c].owner == r
      modifies this
      ensures Model() == M.CatchUp(old(Model()), r, c) && Sound(Model())
    {
      ghost var st := Model();
      ghost var told: seq<StreamEvent> := [];
      CatchUpInOrder(st, r, c);
      hide Sound, M.CatchUp, OfferEach, SortedOrders, Maybe;
      told := TellIf(st, told, r, c, recs[r].state == SubConnected, Connected);
      var orders := if recs[r].orders.Some? then SortedOrders(recs[r].orders.value) else [];
      told := TellIf(st, told, r, c, recs[r].orders.Some?, Snapshot(orders));
      told := TellIf(st, told, r, c, recs[r].ready, Ready);
      told := TellIf(st, told, r, c, recs[r].stale, Stale(true, recs[r].staleReason, recs[r].staleOrderIds));
    }

    method TellIf(ghost st: State, ghost told: seq<StreamEvent>, r: SubRef, c: ConsumerRef, given: bool,
        event: StreamEvent)
      returns (ghost told': seq<StreamEvent>)
      requires r in st.recs && Model() == OfferEach(st, r, c, told) && SharedOf(recs[r]) == SharedOf(st.recs[r])
      requires Sound(Model()) && r in recs && c in consumers && consumers[c].owner == r
      modifies this
      ensures told' == told + Maybe(given, event)
      ensures Model() == OfferEach(st, r, c, told') && SharedOf(recs[r]) == SharedOf(st.recs[r])
      ensures Sound(Model()) && r in recs && c in consumers && consumers[c].owner == r
    {
      hide Sound, OfferEach;
      assert told + [] == told;
      told' := told + Maybe(given, event);
      if given {
        Tell(st, told, r, c, event);
      }
    }

    /** One more event for a consumer that is catching up from `st`. */
    method Tell(ghost st: State, ghost told: seq<StreamEvent>, r: SubRef, c: ConsumerRef, event: StreamEvent)
      requires r in st.recs && Model() == OfferEach(st, r, c, told) && SharedOf(recs[r]) == SharedOf(st.recs[r])
      requires Sound(Model()) && r in recs && c in consumers && consumers[c].owner == r
      modifies this
      ensures Model() == OfferEach(st, r, c, told + [event]) && SharedOf(recs[r]) == SharedOf(st.recs[r])
      ensures recs[r].state == SubConnected <==> old(recs)[r].state == SubConnected
      ensures Sound(Model()) && r in recs && c in consumers && consumers[c].owner == r
    {
      OfferKeepsView(Model(), r, {c}, event);
      assert Init(told + [event]) == told;
      Offer(r, c, event);
    }

    /** The first locked section of `Subscription.Close`. */
    method CloseConsumer(c: ConsumerRef)
      requires Inv(Model())
      modifies this
      ensures Model() == CloseCall(old(Model()), c) && Inv(Model())
    {
      CloseKeeps(Model(), c);
      if c in consumers {
        consumers := consumers[c := consumers[c].(closed := true)];
      }
    }

    method Remove(r: SubRef, c: ConsumerRef)
      requires Inv(Model()) && r in recs
      modifies this
      ensures Model() == M.Remove(old(Model()), r, c) && Inv(Model())
    {
      RemoveKeeps(Model(), r, c);
      InvSound(Model());
      Drop(r, c);
    }

    method Drop(r: SubRef, c: ConsumerRef)
      requires Sound(Model()) && r in recs
      modifies this
      ensures Model() == M.Remove(old(Model()), r, c)
    {
      ghost var consumers0 := consumers;
      if c in recs[r].consumers {
        FinishOwned(subs, recs, consumers, r, {c}, None);
        FinishedLatched(consumers, {c}, None);
        recs := recs[r := recs[r].(consumers := recs[r].consumers - {c})];
        Finish(c, None);
        FinishOne(consumers0, c, None);
        if recs[r].consumers == {} {
          Teardown(r);
        }
      }
    }

    /** A consumer takes the next event from its channel. */
    method Read(c: ConsumerRef) returns (event: Option<StreamEvent>)
      requires Inv(Model())
      modifies this
      ensures Model() == ReadOne(old(Model()), c) && Inv(Model())
      ensures c in old(consumers) && old(consumers)[c].read < |old(consumers)[c].log| ==>
        old(consumers)[c].read >= 0 && event == Some(old(consumers)[c].log[old(consumers)[c].read])
    {
      ReadKeeps(Model(), c);
      event := None;
      if c in consumers {
        var k := consumers[c];
        if k.read < |k.log| {
          event := Some(k.log[k.read]);
          consumers := consumers[c := k.(read := k.read + 1)];
        }
      }
    }

    // ---------- Goroutines that return ----------

    method ConnectReturned(run: int, result: TokenResult) returns (ghost order: seq<SubRef>)
      requires Inv(Model()) && ConnectTask(run) in tasks
      modifies this
      ensures VisitsAll(old(Model()), order)
      ensures Model() == M.ConnectReturned(old(Model()), run, result, order) && Inv(Model())
    {
      ghost var st := Model();
      InvSound(st);
      order := DialReturned(run, result);
      ConnectKeeps(st, run, result, order);
    }

    method DialReturned(run: int, result: TokenResult) returns (ghost order: seq<SubRef>)
      requires Sound(Model())
      modifies this
      ensures VisitsAll(old(Model()), order)
      ensures Model() == M.ConnectReturned(old(Model()), run, result, order)
    {
      tasks := tasks - {ConnectTask(run)};
      if sess != Some(run) {
        order := Listed(subs.Values);
        return;
      }
      connecting := false;
      match result {
        case Refused =>
          order := TerminateAll(TokenRefused);
        case Failed =>
          order := ReportAll(Transient);
          ScheduleReconnect();
        case Token =>
          order := Adopt();
      }
    }

    /** A socket that opened becomes the connection. */
    method Adopt() returns (ghost order: seq<SubRef>)
      requires Rostered(subs, recs)
      modifies this
      ensures VisitsAll(old(Model()), order)
      ensures Model() == SubscribeAll(old(Model()).(conn := Some(old(connSeq)), connSeq := old(connSeq) + 1,
        authSent := true), old(connSeq), order)
    {
      hide Rostered, M.SubscribeAll;
      conn, connSeq := Some(connSeq), connSeq + 1;
      order := Authenticate(connSeq - 1);
    }

    method ReauthReturned(conn: int, result: TokenResult) returns (ghost order: seq<SubRef>)
      requires Inv(Model()) && ReauthTask(conn) in tasks
      modifies this
      ensures VisitsAll(old(Model()), order)
      ensures Model() == M.ReauthReturned(old(Model()), conn, result, order) && Inv(Model())
    {
      ghost var st := Model();
      InvSound(st);
      order := Reauthenticated(conn, result);
      ReauthKeeps(st, conn, result, order);
    }

    method Reauthenticated(conn: int, result: TokenResult) returns (ghost order: seq<SubRef>)
      requires Sound(Model())
      modifies this
      ensures VisitsAll(old(Model()), order)
      ensures Model() == M.ReauthReturned(old(Model()), conn, result, order)
    {
      tasks := tasks - {ReauthTask(conn)};
      if this.conn != Some(conn) || result == Token {
        order := Listed(subs.Values);
        return;
      }
      if result == Refused {
        order := TerminateAll(TokenRefused);
      } else {
        order := ReportAll(Transient);
      }
    }

    method SubscribeTokenReturned(conn: int, r: SubRef, id: RequestId, result: TokenResult)
      requires Inv(Model()) && r in recs && SubscribeTask(conn, r, id) in tasks
      modifies this
      ensures Model() == M.SubscribeTokenReturned(old(Model()), conn, r, id, result) && Inv(Model())
    {
      SubscribeTokenKeeps(Model(), conn, r, id, result);
      InvSound(Model());
      SubscribeWithToken(conn, r, id, result);
    }

    method SubscribeWithToken(conn: int, r: SubRef, id: RequestId, result: TokenResult)
      requires Sound(Model()) && r in recs
      modifies this
      ensures Model() == M.SubscribeTokenReturned(old(Model()), conn, r, id, result)
    {
      TokenReturnedInOrder(Model(), conn, r, id, result);
      hide Owned, Latched, M.Terminate, M.Report, M.RetrySubscribe, M.SubscribeTokenReturned, Tokened;
      tasks := tasks - {SubscribeTask(conn, r, id)};
      if id !in pending || pending[id].s != r {
        return;
      }
      if result != Token {
        pending := pending - {id};
        Untokened(conn, r, result);
        return;
      }
      if this.conn == Some(conn) {
        SendSubscribe(conn, r, id);
      }
    }

    /** No token for a subscribe: the end of the subscription, or a retry. */
    method Untokened(conn: int, r: SubRef, result: TokenResult)
      requires Sound(Model()) && r in recs && result != Token
      modifies this
      ensures result == Refused ==> Model() == M.Terminate(old(Model()), r, TokenRefused)
      ensures result == Failed ==> Model() == M.RetrySubscribe(M.Report(old(Model()), r, Transient), conn, r)
    {
      hide Sound, M.Terminate, M.Report, M.RetrySubscribe;
      if result == Refused {
        Terminate(r, TokenRefused);
      } else {
        Report(r, Transient);
        RetrySubscribe(conn, r);
      }
    }

    method SendSubscribe(conn: int, r: SubRef, id: RequestId)
      requires r in recs
      modifies this`sent, this`timerSeq, this`recs
      ensures Model() == Tokened(old(Model()), conn, r, id)
    {
      sent := sent[id := M.Subscribe(recs[r].account, recs[r].cursor)];
      var timer := AfterFunc(conn, id);
      recs := recs[r := recs[r].(ackTimer := timer)];
    }

    method RefreshReturned(conn: int, r: SubRef, serverSub: ServerSub, result: TokenResult)
      requires Inv(Model()) && r in recs && RefreshTask(conn, r, serverSub) in tasks
      modifies this
      ensures Model() == M.RefreshReturned(old(Model()), conn, r, serverSub, result) && Inv(Model())
    {
      RefreshKeeps(Model(), conn, r, serverSub, result);
      InvSound(Model());
      RefreshWithToken(conn, r, serverSub, result);
    }

    method RefreshWithToken(conn: int, r: SubRef, serverSub: ServerSub, result: TokenResult)
      requires Sound(Model()) && r in recs
      modifies this
      ensures Model() == M.RefreshReturned(old(Model()), conn, r, serverSub, result)
    {
      tasks := tasks - {RefreshTask(conn, r, serverSub)};
      if this.conn != Some(conn) || recs[r].sub != serverSub || !IsCurrent(subs, recs, r) {
        return;
      }
      if result != Token {
        Report(r, if result == Refused then TokenRefused else Transient);
        return;
      }
      requestSeq := requestSeq + 1;
      pending := pending[requestSeq := Request(RequestRefresh, r)];
    }

    // ---------- Timers that fire ----------

    method ReconnectFired(timer: int)
      requires Inv(Model())
      modifies this
      ensures Model() == M.ReconnectFired(old(Model()), timer) && Inv(Model())
    {
      ReconnectKeeps(Model(), timer);
      if reconnectTimer != Some(timer) {
        return;
      }
      reconnectTimer := None;
      if subs != map[] && conn.None? && !connecting {
        Open();
      }
    }

    method RetryFired(r: SubRef, timer: Timer)
      requires Inv(Model()) && r in recs
      modifies this
      ensures Model() == M.RetryFired(old(Model()), r, timer) && Inv(Model())
    {
      RetryKeeps(Model(), r, timer);
      if recs[r].retryTimer != Some(timer) {
        return;
      }
      recs := recs[r := recs[r].(retryTimer := None)];
      if conn == Some(timer.conn) && IsCurrent(subs, recs, r) && recs[r].sub == 0 {
        SubscribeServer(timer.conn, r);
      }
    }

    method AckFired(r: SubRef, timer: Timer)
      requires Inv(Model()) && r in recs
      modifies this
      ensures Model() == M.AckFired(old(Model()), r, timer) && Inv(Model())
    {
      AckKeeps(Model(), r, timer);
      if recs[r].ackTimer != Some(timer) {
        return;
      }
      PatchOwned(subs, recs, consumers, r, recs[r].(ackTimer := None));
      recs := recs[r := recs[r].(ackTimer := None)];
      ExpireSubscribe(timer.conn, r, timer.request);
    }

    method ExpireSubscribe(conn: int, r: SubRef, id: RequestId)
      requires Sound(Model()) && r in recs
      modifies this
      ensures Model() == M.ExpireSubscribe(old(Model()), conn, r, id)
    {
      if id !in pending || pending[id].s != r {
        return;
      }
      if !recs[r].confirmed {
        Terminate(r, SubscribeTimeout);
        return;
      }
      pending := pending - {id};
      Report(r, SubscribeTimeout);
      if this.conn == Some(conn) && IsCurrent(subs, recs, r) && recs[r].sub == 0 {
        RetrySubscribe(conn, r);
      }
    }

    // ---------- Frames ----------

    /** One message from the socket. */
    method OnFrame(conn: int, msg: Incoming) returns (ghost order: seq<SubRef>)
      requires Inv(Model()) && (this.conn == Some(conn) && msg.Message? ==> ControlKept(Model(), msg))
      modifies this
      ensures VisitsAll(old(Model()), order) && Rooted(old(Model()))
      ensures Model() == FrameArrived(old(Model()), conn, msg, order) && Inv(Model())
    {
      ghost var st := Model();
      InvSound(st);
      hide Inv, Sound, M.OnSubscribed, M.OnRequestError, M.OnSubFrame, M.ReportAll, ControlKept;
      if this.conn != Some(conn) {
        order := Listed(subs.Values);
        return;
      }
      if msg.Unreadable? {
        order := ReportAll(BadFrame);
      } else {
        order := OnMessage(conn, msg);
      }
      FrameKeeps(st, conn, msg, order);
    }

    method OnMessage(conn: int, msg: Incoming) returns (ghost order: seq<SubRef>)
      requires Sound(Model()) && Rooted(Model()) && this.conn == Some(conn) && msg.Message?
      requires forall id :: id in pending ==> IsCurrent(subs, recs, pending[id].s)
      modifies this
      ensures VisitsAll(old(Model()), order)
      ensures Model() == FrameArrived(old(Model()), conn, msg, order)
    {
      hide Sound, M.OnSubscribed, M.OnRequestError, M.OnSubFrame, M.ReportAll, IsCurrent;
      order := Listed(subs.Values);
      match msg.frame {
        case Subscribed(id) =>
          OnSubscribed(id, msg.sub);
        case SubscribeRefreshed(id) =>
          pending := pending - {id};
        case Error(id, code) =>
          order := OnRequestError(conn, msg.sub, id, code);
        case TokenExpiring =>
          GoSession(ReauthTask(conn));
        case Unsubscribed(id) =>
          if id in unsubscribing {
            unsubscribing := unsubscribing - {id};
          } else {
            OnSubFrame(conn, msg.sub, msg.seqNo, msg.frame);
          }
        case _ =>
          OnSubFrame(conn, msg.sub, msg.seqNo, msg.frame);
      }
    }

    method OnSubscribed(id: RequestId, sid: ServerSub)
      requires Sound(Model()) && Rooted(Model())
      requires id in pending ==> IsCurrent(subs, recs, pending[id].s)
      modifies this
      ensures Model() == M.OnSubscribed(old(Model()), id, sid)
    {
      hide Owned, Latched, M.NotifyConnected, M.NotifyFresh, Confirmed;
      if id !in pending || pending[id].kind != RequestSubscribe {
        if sid != 0 {
          Unsubscribe();
        }
        return;
      }
      SubscribedInOrder(Model(), id, sid);
      var r := pending[id].s;
      Confirm(id, sid);
      NotifyConnected(r);
      NotifyFresh(r);
    }

    method Confirm(id: RequestId, sid: ServerSub)
      requires Sound(Model()) && id in pending && pending[id].s in recs && IsCurrent(subs, recs, pending[id].s)
      modifies this`pending, this`recs, this`bySub
      ensures Model() == Confirmed(old(Model()), id, sid) && Sound(Model())
    {
      hide Owned, Latched;
      var r := pending[id].s;
      PatchSound(Model(), r, recs[r].(ackTimer := None, confirmed := true, sub := sid, seqNo := 0, ready := false));
      pending := pending - {id};
      recs := recs[r := recs[r].(ackTimer := None, confirmed := true, sub := sid, seqNo := 0, ready := false)];
      bySub := bySub[sid := r];
    }

    method NotifyConnected(r: SubRef)
      requires Sound(Model()) && r in recs
      modifies this
      ensures Model() == M.NotifyConnected(old(Model()), r) && Sound(Model())
    {
      if recs[r].state != SubConnected {
        SetState(r, SubConnected);
        Deliver(r, Connected);
      }
    }

    /** A new subscription reports unavailable itself if its view is still behind. */
    method NotifyFresh(r: SubRef)
      requires Sound(Model()) && r in recs
      modifies this
      ensures Model() == M.NotifyFresh(old(Model()), r)
    {
      if recs[r].stale {
        Announce(r, FreshRec(recs[r]), Stale(false, 0, []));
      }
    }

    method OnRequestError(conn: int, serverSub: ServerSub, id: RequestId, code: ErrorCode)
        returns (ghost order: seq<SubRef>)
      requires Sound(Model()) && Rooted(Model())
      modifies this
      ensures VisitsAll(old(Model()), order)
      ensures Model() == M.OnRequestError(old(Model()), conn, serverSub, id, code, order)
    {
      order := Listed(subs.Values);
      if id == 0 {
        if serverSub in bySub {
          SubscriptionError(conn, bySub[serverSub], serverSub, code);
        } else {
          order := ReportAll(RequestFailed(code));
        }
        return;
      }
      if id in unsubscribing {
        unsubscribing := unsubscribing - {id};
        return;
      }
      if id !in pending {
        return;
      }
      var request := pending[id];
      pending := pending - {id};
      if request.kind == RequestSubscribe {
        SubscribeError(conn, request.s, code);
      } else {
        SubscriptionError(conn, request.s, serverSub, code);
      }
    }

    method SubscribeError(conn: int, r: SubRef, code: ErrorCode)
      requires Sound(Model()) && r in recs
      modifies this
      ensures Model() == M.SubscribeError(old(Model()), conn, r, code)
    {
      if code == CursorInvalid {
        recs := recs[r := recs[r].(cursor := 0)];
        SubscribeServer(conn, r);
      } else {
        Terminate(r, RequestFailed(code));
      }
    }

    method SubscriptionError(conn: int, r: SubRef, serverSub: ServerSub, code: ErrorCode)
      requires Sound(Model()) && r in recs
      modifies this
      ensures Model() == M.SubscriptionError(old(Model()), conn, r, serverSub, code)
    {
      if code == SubscriptionUnknown && recs[r].sub == serverSub {
        ServerEnded(conn, r);
      } else {
        Report(r, RequestFailed(code));
      }
    }

    method ServerEnded(conn: int, r: SubRef)
      requires Sound(Model()) && r in recs
      modifies this
      ensures Model() == M.ServerEnded(old(Model()), conn, r)
    {
      PatchOwned(subs, recs, consumers, r, recs[r].(sub := 0));
      bySub := bySub - {recs[r].sub};
      recs := recs[r := recs[r].(sub := 0)];
      Resubscribe(conn, r);
    }

    /** A frame addressed to one server subscription: sequence check, then its effect. */
    method OnSubFrame(conn: int, sid: ServerSub, seqNo: int, frame: Frame)
      requires Sound(Model()) && Rooted(Model())
      modifies this
      ensures Model() == M.OnSubFrame(old(Model()), conn, sid, seqNo, frame)
    {
      hide Sound, M.Resubscribe, M.Process;
      if sid !in bySub {
        return;
      }
      var r := bySub[sid];
      if seqNo > 0 && seqNo != recs[r].seqNo + 1 {
        Resubscribe(conn, r);
        return;
      }
      Count(r, seqNo);
      Process(conn, r, frame);
    }

    /** A frame kind this client does not know is skipped, but its sequence number counts. */
    method Count(r: SubRef, seqNo: int)
      requires Sound(Model()) && r in recs
      modifies this`recs
      ensures Model() == WithRec(old(Model()), r, if seqNo > 0 then old(recs)[r].(seqNo := seqNo) else old(recs)[r])
        && Sound(Model())
    {
      if seqNo > 0 {
        PatchSound(Model(), r, recs[r].(seqNo := seqNo));
        recs := recs[r := recs[r].(seqNo := seqNo)];
      } else {
        Unpatched(recs, r, recs[r]);
      }
    }

    /** Replaces the record of `r` and tells its consumers. */
    method Announce(r: SubRef, s: Sub, event: StreamEvent)
      requires Sound(Model()) && r in recs
      requires s.account == recs[r].account && s.consumers == recs[r].consumers && s.sub == recs[r].sub
      modifies this
      ensures Model() == M.Deliver(WithRec(old(Model()), r, s), r, event)
    {
      PatchOwned(subs, recs, consumers, r, s);
      recs := recs[r := s];
      Deliver(r, event);
    }

    method Edit(r: SubRef, s: Sub)
      modifies this`recs
      ensures Model() == WithRec(old(Model()), r, s)
    {
      recs := recs[r := s];
    }

    method Process(conn: int, r: SubRef, frame: Frame)
      requires Sound(Model()) && r in recs
      modifies this
      ensures Model() == M.Process(old(Model()), conn, r, frame)
    {
      hide Sound, M.Process;
      if IsQuiet(frame) {
        Stage(conn, r, frame);
      } else if Announced(frame) {
        ProcessAnnounced(conn, r, frame);
      } else {
        ProcessOther(conn, r, frame);
      }
    }

    method ProcessOther(conn: int, r: SubRef, frame: Frame)
      requires Sound(Model()) && r in recs && !IsQuiet(frame) && !Announced(frame)
      modifies this
      ensures Model() == M.Process(old(Model()), conn, r, frame)
    {
      hide Sound, M.ServerEnded, M.EndSnapshot, M.Deliver, M.BecomeReady;
      match frame {
        case SnapshotEnd(count, cursor) =>
          EndSnapshot(conn, r, count, cursor);
        case SubscribeExpiring =>
          GoSession(RefreshTask(conn, r, recs[r].sub));
        case Unsubscribed(_) =>
          ServerEnded(conn, r);
        case _ =>
      }
    }

    /** The frames that only change the record. */
    method Stage(conn: int, r: SubRef, frame: Frame)
      requires r in recs && IsQuiet(frame)
      modifies this`recs
      ensures Model() == M.Process(old(Model()), conn, r, frame)
    {
      var s := recs[r];
      match frame {
        case SnapshotBegin =>
          Edit(r, s.(staging := true, staged := []));
        case SnapshotPage(orders) =>
          if s.staging {
            Edit(r, s.(staged := s.staged + orders));
          }
        case Covered(cursor) =>
          Edit(r, s.(cursor := cursor, retries := 0));
        case ResyncRequired =>
          Edit(r, s.(staging := false, staged := []));
      }
    }

    /** The frames consumers are told of. */
    method ProcessAnnounced(conn: int, r: SubRef, frame: Frame)
      requires Sound(Model()) && r in recs && Announced(frame)
      modifies this
      ensures Model() == M.Process(old(Model()), conn, r, frame)
    {
      hide Sound, M.Deliver;
      var s := recs[r];
      match frame {
        case UnitFrame(changed, removed, nextCursor) =>
          Announce(r, UnitRec(s, changed, removed, nextCursor), Unit(changed, removed));
        case ReadyFrame =>
          if s.ready {
            Edit(r, s.(retries := 0));
          } else {
            Announce(r, s.(retries := 0, ready := true), Ready);
          }
        case Unavailable(reason, ids) =>
          Announce(r, s.(stale := true, staleReason := reason, staleOrderIds := ids), Stale(true, reason, ids));
        case Available =>
          Announce(r, FreshRec(s), Stale(false, 0, []));
      }
    }

    method EndSnapshot(conn: int, r: SubRef, count: int, cursor: Cursor)
      requires Sound(Model()) && r in recs
      modifies this
      ensures Model() == M.EndSnapshot(old(Model()), conn, r, count, cursor)
    {
      ghost var recs0 := recs;
      var staged, staging := recs[r].staged, recs[r].staging;
      if !staging || |staged| != count {
        PatchOwned(subs, recs, consumers, r, recs[r].(staging := false, staged := [], cursor := 0));
        recs := recs[r := recs[r].(staging := false, staged := [], cursor := 0)];
        Resubscribe(conn, r);
        return;
      }
      var orders := IndexById(staged);
      Announce(r, recs[r].(staging := false, staged := [], cursor := cursor, retries := 0, orders := Some(orders)),
        Snapshot(staged));
    }

    // ---------- The socket ----------

    method OnClosed(conn: int, code: int, stable: bool) returns (ghost order: seq<SubRef>)
      requires Inv(Model())
      modifies this
      ensures VisitsAll(old(Model()), order)
      ensures Model() == SocketClosed(old(Model()), conn, code, stable, order) && Inv(Model())
    {
      InvSound(Model());
      ghost var st := Model();
      order := ConnectionLost(conn, code, stable);
      ClosedKeeps(st, conn, code, stable, order);
    }

    method ConnectionLost(conn: int, code: int, stable: bool) returns (ghost order: seq<SubRef>)
      requires Sound(Model())
      modifies this
      ensures VisitsAll(old(Model()), order)
      ensures Model() == SocketClosed(old(Model()), conn, code, stable, order)
    {
      order := Listed(subs.Values);
      if this.conn != Some(conn) {
        return;
      }
      DetachOwned(Model());
      Detach();
      if stable {
        reconnectAttempt := 0;
      }
      if subs == map[] {
        return;
      }
      if code == 4400 || code == 4403 {
        order := TerminateAll(ConnectionClosed(code));
      } else {
        ScheduleReconnect();
        order := NotifyAllDisconnected();
      }
    }

    method NotifyAllDisconnected() returns (ghost order: seq<SubRef>)
      requires Sound(Model())
      modifies this
      ensures VisitsAll(old(Model()), order)
      ensures Model() == M.NotifyAllDisconnected(old(Model()), order)
    {
      ghost var st := Model();
      var all := SnapshotSubs();
      for i := 0 to |all|
        invariant Sound(Model())
        invariant Model() == M.NotifyAllDisconnected(st, all[..i])
      {
        assert Init(all[..i + 1]) == all[..i];
        NotifyDisconnected(all[i]);
      }
      assert all[..|all|] == all;
      order := all;
    }
  }

  /** The live view of a snapshot: its orders by id, a later one replacing an earlier one. */
  method IndexById(staged: seq<Order>) returns (orders: OrderMap)
    ensures orders == Upsert(map[], staged)
  {
    orders := map[];
    for i := 0 to |staged|
      invariant orders == Upsert(map[], staged[..i])
    {
      assert Init(staged[..i + 1]) == staged[..i];
      orders := orders[staged[i].id := staged[i]];
    }
    assert staged[..|staged|] == staged;
  }
}
