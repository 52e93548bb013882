/** What the private order stream promises, of every run and every interleaving. */
module OrderStreamTheorems {
  import opened Basics
  import opened OrderStreamModel
  import opened OrderStreamInvariant
  import opened OrderStreamHelpers
  import opened OrderStreamRequests
  import opened OrderStreamControl
  import opened OrderStreamSteps
  import opened OrderStreamOnward
  import opened OrderStreamView

  /**
   View refinement. A subscription that holds a position shows exactly the
   server's live view at that position.
   */
  lemma ViewRefinement(w: Server, maxQueue: int, events: seq<Event>, r: SubRef)
    requires Honest(w) && maxQueue > 0
    requires var st := Exec(w, maxQueue, events); Current(st, r) && st.recs[r].cursor != 0
    ensures var s := Exec(w, maxQueue, events).recs[r];
      Position(s.account, s.cursor) in w.views && s.orders == Some(w.views[Position(s.account, s.cursor)])
  {
    RunKeeps(w, maxQueue, events);
    assert ViewOk(w, Exec(w, maxQueue, events).recs[r]);
  }

  /**
   In-order prefix. What a live subscription has made of its frames is what
   the server's first `seqNo` frames make, one after the other.
   */
  lemma InOrderPrefix(w: Server, maxQueue: int, events: seq<Event>, r: SubRef)
    requires Honest(w) && maxQueue > 0
    requires var st := Exec(w, maxQueue, events); Current(st, r) && st.recs[r].sub != 0
    ensures var s := Exec(w, maxQueue, events).recs[r];
      && s.sub in w.streams && 0 <= s.seqNo <= |w.streams[s.sub].frames|
      && Tracks(s, After(StartOf(w, w.streams[s.sub]), w.streams[s.sub].frames[..s.seqNo]))
  {
    RunKeeps(w, maxQueue, events);
    assert ViewOk(w, Exec(w, maxQueue, events).recs[r]);
  }

  /**
   Staleness and readiness as told. A live subscription is stale, for the
   reason and the orders given, exactly as the last notice among the frames it
   has processed says, and fresh if there is none; it is ready exactly once one
   of them said so. Its open consumers know the same.
   */
  lemma StaleAsTold(w: Server, maxQueue: int, events: seq<Event>, r: SubRef, c: ConsumerRef)
    requires Honest(w) && maxQueue > 0
    requires var st := Exec(w, maxQueue, events); Current(st, r) && st.recs[r].sub != 0
    ensures var st := Exec(w, maxQueue, events); var s := st.recs[r];
      && s.sub in w.streams && 0 <= s.seqNo <= |w.streams[s.sub].frames|
      && var frames := w.streams[s.sub].frames[..s.seqNo];
         && Notice(s.stale, s.staleReason, s.staleOrderIds) == LastNotice(frames)
         && (s.ready <==> ReadyFrame in frames)
         && (c in s.consumers ==> c in st.consumers)
         && (c in s.consumers && !st.consumers[c].closed ==>
               var known := Folded(st.consumers[c].log);
               && Notice(known.stale, known.staleReason, known.staleOrderIds) == LastNotice(frames)
               && (known.ready <==> ReadyFrame in frames))
  {
    RunKeeps(w, maxQueue, events);
    var st := Exec(w, maxQueue, events);
    assert ViewOk(w, st.recs[r]);
    hide Exec, Inv, ViewInv;
    if c in st.recs[r].consumers { ConsumersAgree(w, maxQueue, events, r, c); }
  }

  /**
   Late-joiner agreement. Whenever a consumer joined, folding what it was sent
   gives the view, connection, readiness and staleness its subscription has.
   */
  lemma ConsumersAgree(w: Server, maxQueue: int, events: seq<Event>, r: SubRef, c: ConsumerRef)
    requires Honest(w) && maxQueue > 0
    requires var st := Exec(w, maxQueue, events); Current(st, r) && c in st.recs[r].consumers
    ensures var st := Exec(w, maxQueue, events);
      c in st.consumers && (!st.consumers[c].closed ==> Folded(st.consumers[c].log) == SharedOf(st.recs[r]))
  {
    RunKeeps(w, maxQueue, events);
    OneAgrees(Exec(w, maxQueue, events), r, c);
  }

  lemma OneAgrees(st: State, r: SubRef, c: ConsumerRef)
    requires Owned(st.subs, st.recs, st.consumers) && AllSettled(st) && Current(st, r) && c in st.recs[r].consumers
    ensures c in st.consumers && (!st.consumers[c].closed ==> Folded(st.consumers[c].log) == SharedOf(st.recs[r]))
  {
    assert Settled(st, r);
  }

  /**
   Never stranded, never doubled. While connected, a subscription has exactly
   one of a live server subscription, one pending subscribe and an armed retry
   timer, and a pending subscribe has a goroutine or a timer that will wake it.
   */
  lemma NeverStranded(w: Server, maxQueue: int, events: seq<Event>, r: SubRef)
    requires Honest(w) && maxQueue > 0
    requires var st := Exec(w, maxQueue, events); Current(st, r) && st.conn.Some?
    ensures var st := Exec(w, maxQueue, events); var s := st.recs[r];
      && (s.sub != 0 || Waiting(st, r) || s.retryTimer.Some?)
      && !(s.sub != 0 && Waiting(st, r)) && !(s.sub != 0 && s.retryTimer.Some?)
        && !(Waiting(st, r) && s.retryTimer.Some?)
      && (forall i, j :: Awaits(st, i, r) && Awaits(st, j, r) ==> i == j)
      && (forall id :: Awaits(st, id, r) ==> Awake(st, id, r))
  {
    RunKeeps(w, maxQueue, events);
    assert Settled(Exec(w, maxQueue, events), r);
  }

  /**
   While a subscription exists there is a connection, a connect in flight or an armed reconnect timer, and
   exactly one of them.
   */
  lemma NeverDisconnectedForGood(w: Server, maxQueue: int, events: seq<Event>)
    requires Honest(w) && maxQueue > 0 && Exec(w, maxQueue, events).subs != map[]
    ensures var st := Exec(w, maxQueue, events);
      && Linked(st) && st.sess.Some?
      && (st.connecting <==> ConnectTask(st.sess.value) in st.tasks)
  {
    RunKeeps(w, maxQueue, events);
  }

  /**
   Bookkeeping. `bySub` is the exact inverse of `sub`, requests and consumers
   belong to current subscriptions, every current subscription has a consumer,
   and the run exists exactly while a subscription does.
   */
  lemma BooksBalance(w: Server, maxQueue: int, events: seq<Event>)
    requires Honest(w) && maxQueue > 0
    ensures var st := Exec(w, maxQueue, events);
      && (forall r :: Current(st, r) && st.recs[r].sub != 0 ==>
        st.recs[r].sub in st.bySub && st.bySub[st.recs[r].sub] == r)
      && (forall sid :: sid in st.bySub ==> Current(st, st.bySub[sid]) && st.recs[st.bySub[sid]].sub == sid)
      && (forall id :: id in st.pending ==> Current(st, st.pending[id].s))
      && (forall r :: Current(st, r) ==> st.recs[r].consumers != {})
      && (forall c :: c in st.consumers && !st.consumers[c].chClosed ==>
        Current(st, st.consumers[c].owner) && c in st.recs[st.consumers[c].owner].consumers)
      && (st.sess.Some? <==> st.subs != map[])
  {
    RunKeeps(w, maxQueue, events);
    var st := Exec(w, maxQueue, events);
    forall r | Current(st, r) ensures st.recs[r].consumers != {} { assert Settled(st, r); }
  }

  /** The queue bound: a consumer never has more than `maxQueue` events waiting. */
  lemma QueuesBounded(w: Server, maxQueue: int, events: seq<Event>, c: ConsumerRef)
    requires Honest(w) && maxQueue > 0 && c in Exec(w, maxQueue, events).consumers
    ensures var k := Exec(w, maxQueue, events).consumers[c]; 0 <= k.read <= |k.log| <= k.read + maxQueue
  {
    RunKeeps(w, maxQueue, events);
    ExecMaxQueue(w, maxQueue, events);
  }

  lemma {:induction false} ExecMaxQueue(w: Server, maxQueue: int, events: seq<Event>)
    requires Honest(w) && maxQueue > 0
    ensures Exec(w, maxQueue, events).maxQueue == maxQueue
  {
    if events != [] {
      ExecMaxQueue(w, maxQueue, Init(events));
      var st := Exec(w, maxQueue, Init(events));
      if Admissible(w, st, Last(events)) {
        RunKeeps(w, maxQueue, Init(events));
        StepView(w, st, Last(events));
      }
    }
  }

  /** A closed consumer is never sent to again, and its channel is never reopened, however the run goes on. */
  lemma {:induction false} ClosedForGood(w: Server, maxQueue: int, events: seq<Event>, more: seq<Event>, c: ConsumerRef)
    requires Honest(w) && maxQueue > 0
    requires c in Exec(w, maxQueue, events).consumers && Exec(w, maxQueue, events).consumers[c].closed
    ensures var k, st' := Exec(w, maxQueue, events).consumers[c], Exec(w, maxQueue, events + more);
      && c in st'.consumers && st'.consumers[c].closed && st'.consumers[c].log == k.log
      && (k.chClosed ==> st'.consumers[c].chClosed)
    decreases |more|
  {
    if more == [] {
      assert events + more == events;
    } else {
      ClosedForGood(w, maxQueue, events, Init(more), c);
      assert Init(events + more) == events + Init(more) && Last(events + more) == Last(more);
      var st := Exec(w, maxQueue, events + Init(more));
      RunKeeps(w, maxQueue, events + Init(more));
      if Admissible(w, st, Last(more)) {
        StepView(w, st, Last(more));
        assert Ahead(st.consumers[c], Step(st, Last(more)).consumers[c]);
      }
    }
  }

  /**
   Why the refreshed subscription must be named. An error that says a refreshed
   subscription is unknown without naming it, for a subscription that has no
   server subscription at that moment, makes it subscribe once more: it is
   still served by exactly one thing if and only if it was not already waiting
   for a subscribe of its own.
   */
  lemma UnnamedRefreshError(st: State, conn: int, id: RequestId, order: seq<SubRef>)
    requires Inv(st) && Rooted(st) && st.conn == Some(conn)
    requires forall i :: 0 <= i < |order| ==> order[i] in st.recs
    requires id in st.pending && id !in st.unsubscribing && st.pending[id].kind == RequestRefresh
    requires st.recs[st.pending[id].s].sub == 0
    ensures var r, st' := st.pending[id].s, OnRequestError(st, conn, 0, id, SubscriptionUnknown, order);
      Current(st', r) && st'.conn == Some(conn) && (Served(st', r) <==> !Waiting(st, r))
  {
    var r := st.pending[id].s;
    assert Current(st, r) && Settled(st, r) && id != 0;
    RefreshAnsweredKeeps(st, id);
    var st1 := st.(pending := st.pending - {id});
    forall i ensures Awaits(st, i, r) <==> Awaits(st1, i, r) {}
    WaitingSame(st, st1, r);
    UnnamedRedial(st1, conn, r);
  }

  lemma UnnamedDrop(st: State, conn: int, r: SubRef)
    requires Inv(st) && Current(st, r) && st.conn == Some(conn) && st.recs[r].sub == 0
    ensures SubscriptionError(st, conn, r, 0, SubscriptionUnknown) == Redial(DropServerSub(st, r), conn, r)
  {
    hide Owned, Queued, Ticketed, Dialled, Agrees;
    assert Settled(st, r);
    var st1 := WithRec(st, r, st.recs[r].(sub := 0)).(bySub := st.bySub - {0});
    assert st1.recs == st.recs && st1.bySub == st.bySub;
    assert st1 == st;
  }

  lemma UnnamedRedial(st: State, conn: int, r: SubRef)
    requires Inv(st) && Current(st, r) && st.conn == Some(conn) && st.recs[r].sub == 0
    ensures var st' := SubscriptionError(st, conn, r, 0, SubscriptionUnknown);
      Current(st', r) && st'.conn == Some(conn) && (Served(st', r) <==> !Waiting(st, r))
  {
    UnnamedDrop(st, conn, r);
    assert Settled(st, r);
    if Waiting(st, r) {
      hide SubscriptionError, Agrees, Served, Redial, DropServerSub, Core;
      UnnamedDoubles(st, conn, r);
    } else {
      assert st.recs[r].retryTimer.Some? && st.recs[r].retries > 0;
      hide SubscriptionError, Agrees, Served, Redial, DropServerSub, Core;
      UnnamedServes(st, conn, r);
    }
  }

  /** Waiting for its retry timer, it gets another one in its place. */
  lemma UnnamedServes(st: State, conn: int, r: SubRef)
    requires Core(st) && Current(st, r) && st.conn == Some(conn) && st.recs[r].sub == 0 && st.recs[r].retries > 0
    requires !Waiting(st, r) && Carried(st, r)
    ensures var st' := Redial(DropServerSub(st, r), conn, r);
      Current(st', r) && st'.conn == Some(conn) && Served(st', r)
  {
    var st1 := DropServerSub(st, r);
    assert st1 == WithRec(st, r, DroppedRec(st.recs[r]));
    PatchCore(st, r, DroppedRec(st.recs[r]));
    forall i ensures !Awaits(st1, i, r) { assert !Awaits(st, i, r); }
    hide Core, Served;
    RetryCarries(st1, conn, r);
  }

  /** The subscribe it waits for is joined by a retry timer or a second subscribe. */
  lemma UnnamedDoubles(st: State, conn: int, r: SubRef)
    requires Core(st) && Current(st, r) && st.conn == Some(conn) && st.recs[r].sub == 0 && Waiting(st, r)
    ensures var st' := Redial(DropServerSub(st, r), conn, r);
      Current(st', r) && st'.conn == Some(conn) && !Served(st', r)
  {
    var st1 := DropServerSub(st, r);
    var i :| Awaits(st, i, r);
    assert i <= st.requestSeq && Awaits(st1, i, r) && st1.requestSeq == st.requestSeq;
    hide Core, Served, DropServerSub, Redial;
    RedialDoubles(st1, conn, r, i);
  }

  lemma RedialDoubles(st: State, conn: int, r: SubRef, i: RequestId)
    requires Current(st, r) && st.conn == Some(conn) && st.sess.Some? && Awaits(st, i, r) && i <= st.requestSeq
    ensures var st' := Redial(st, conn, r);
      Current(st', r) && st'.conn == Some(conn) && !Served(st', r)
  {
    hide Served, SubscribeServer, RetrySubscribe;
    if st.recs[r].retries > 0 {
      RetryDoubles(st, conn, r, i);
    } else {
      var st1 := WithRec(st, r, st.recs[r].(retries := 1));
      assert Awaits(st1, i, r) && Current(st1, r);
      SubscribeDoubles(st1, conn, r, i);
    }
  }

  lemma RetryDoubles(st: State, conn: int, r: SubRef, i: RequestId)
    requires Current(st, r) && st.conn == Some(conn) && st.sess.Some? && Awaits(st, i, r)
    ensures var st' := RetrySubscribe(st, conn, r); Current(st', r) && st'.conn == Some(conn) && !Served(st', r)
  {
    hide Served;
    assert Awaits(RetrySubscribe(st, conn, r), i, r);
    TwoCarriers(RetrySubscribe(st, conn, r), r, i, i);
  }

  lemma SubscribeDoubles(st: State, conn: int, r: SubRef, i: RequestId)
    requires Current(st, r) && st.conn == Some(conn) && Awaits(st, i, r) && i <= st.requestSeq
    ensures var st' := SubscribeServer(st, conn, r); Current(st', r) && st'.conn == Some(conn) && !Served(st', r)
  {
    hide Served;
    var st' := SubscribeServer(st, conn, r);
    assert Awaits(st', i, r) && Awaits(st', st.requestSeq + 1, r);
    TwoCarriers(st', r, i, st.requestSeq + 1);
  }

  lemma TwoCarriers(st: State, r: SubRef, i: RequestId, j: RequestId)
    requires r in st.recs && st.conn.Some? && Awaits(st, i, r) && Awaits(st, j, r)
      && (i != j || st.recs[r].retryTimer.Some?)
    ensures !Served(st, r)
  {
  }
}
