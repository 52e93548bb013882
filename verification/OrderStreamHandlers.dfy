/** Goroutines that return, timers that fire and frames that arrive. */
module OrderStreamHandlers {
  import opened Basics
  import opened OrderStreamModel
  import opened OrderStreamInvariant
  import opened OrderStreamHelpers
  import opened OrderStreamRequests
  import opened OrderStreamConsumers

  // ---------- Subscribe ----------

  lemma OpenKeeps(st: State)
    requires Core(st) && AllSettled(st) && st.sess.Some? && st.conn.None? && !st.connecting && st.reconnectTimer.None?
    ensures Inv(Open(st))
  {
    var st' := Open(st);
    forall q | Current(st', q) ensures Settled(st', q) {
      assert Settled(st, q);
      SteadyFrame(st, st', q) by { assert forall id :: Awaits(st, id, q) <==> Awaits(st', id, q); }
    }
  }

  lemma SubscribeKeeps(st: State, account: Account, c: ConsumerRef, r: SubRef)
    requires Inv(st) && c !in st.consumers && r !in st.recs
    ensures Inv(SubscribeCall(st, account, c, r))
  {
    if account in st.subs { JoinExistingKeeps(st, account, c, r); } else { JoinNewKeeps(st, account, c, r); }
  }

  lemma JoinExistingKeeps(st: State, account: Account, c: ConsumerRef, r: SubRef)
    requires Inv(st) && c !in st.consumers && r !in st.recs && account in st.subs
    ensures Inv(SubscribeCall(st, account, c, r))
  {
    var st1 := Join(st, account, c, r);
    var q := st.subs[account];
    JoinCore(st, account, c, r);
    JoinOthers(st, account, c, r);
    JoinedSteady(st, account, c, r);
    assert Current(st, q) && Settled(st, q);
    var other :| other in st.recs[q].consumers;
    CatchUpSettles(st1, q, c, other);
    LinkedElsewhere(st1, CatchUp(st1, q, c), q);
  }

  lemma JoinNewKeeps(st: State, account: Account, c: ConsumerRef, r: SubRef)
    requires Inv(st) && c !in st.consumers && r !in st.recs && account !in st.subs
    ensures Inv(SubscribeCall(st, account, c, r))
  {
    var st1 := Join(st, account, c, r);
    JoinCore(st, account, c, r);
    JoinOthers(st, account, c, r);
    JoinedNew(st, account, c, r);
    if st1.conn.Some? {
      SubscribeServerSettles(st1, st1.conn.value, r);
    } else if !st1.connecting && st1.reconnectTimer.None? {
      OpenKeeps(st1);
    }
  }

  lemma SubscribeServerSettles(st: State, conn: int, r: SubRef)
    requires Core(st) && AllSettledBut(st, r) && Current(st, r) && st.conn == Some(conn)
    requires Idle(st, r) && st.recs[r].consumers != {} && Consistent(st.recs[r]) && Agrees(st, r)
    ensures Core(SubscribeServer(st, conn, r)) && AllSettled(SubscribeServer(st, conn, r))
    ensures Elsewhere(st, SubscribeServer(st, conn, r), r)
  {
    SubscribeServerCore(st, conn, r);
    SubscribeServerCarries(st, conn, r);
    SettledElsewhere(st, SubscribeServer(st, conn, r), r);
  }

  lemma JoinedSteady(st: State, account: Account, c: ConsumerRef, r: SubRef)
    requires Inv(st) && c !in st.consumers && r !in st.recs && account in st.subs
    ensures var st1, q := Join(st, account, c, r), st.subs[account];
      && Current(st1, q) && Steady(st1, q) && Linked(st1)
      && st1.consumers[c] == NewConsumer(q)
      && (forall x :: x in st1.recs[q].consumers && x != c && x in st1.consumers && !st1.consumers[x].closed ==>
            Folded(st1.consumers[x].log) == SharedOf(st1.recs[q]))
  {
    var st1, q := Join(st, account, c, r), st.subs[account];
    assert Current(st, q) && Settled(st, q);
    assert forall id :: Awaits(st, id, q) <==> Awaits(st1, id, q);
    WaitingSame(st, st1, q);
  }

  lemma JoinedNew(st: State, account: Account, c: ConsumerRef, r: SubRef)
    requires Inv(st) && c !in st.consumers && r !in st.recs && account !in st.subs
    ensures var st1 := Join(st, account, c, r);
      && Current(st1, r) && Idle(st1, r) && st1.recs[r].consumers == {c} && Consistent(st1.recs[r]) && Agrees(st1, r)
      && (st1.conn.None? ==> Settled(st1, r))
      && (st.sess.None? ==> st1.conn.None? && !st1.connecting && st1.reconnectTimer.None?)
      && (st.sess.Some? ==> Linked(st1))
  {
    var st1 := Join(st, account, c, r);
    assert NewRec.consumers + {c} == {c};
    forall id ensures !Awaits(st1, id, r) { assert id in st.pending ==> st.pending[id].s in st.recs; }
    assert Folded([]) == SharedOf(st1.recs[r]);
  }

  // ---------- Goroutines ----------

  lemma ConnectKeeps(st: State, sess: int, result: TokenResult, order: seq<SubRef>)
    requires Inv(st) && ConnectTask(sess) in st.tasks
    requires Enumerates(order, st.subs.Values) && (forall i :: 0 <= i < |order| ==> order[i] in st.recs)
    ensures Inv(ConnectReturned(st, sess, result, order))
  {
    hide TerminateAll, ReportAll, Core, AllSettled, Linked;
    ConnectDone(st, sess);
    if st.sess == Some(sess) {
      var st1 := st.(tasks := st.tasks - {ConnectTask(sess)}, connecting := false);
      match result
      case Refused => TerminateAllEnds(st1, TokenRefused, order);
      case Failed =>
        ReportAllSettles(st1, Transient, order);
        ScheduleKeeps(ReportAll(st1, Transient, order));
      case Token => ConnectedKeeps(st1, order);
    }
  }

  /** A connect goroutine that returned: of an ended run, or leaving this run unlinked. */
  lemma ConnectDone(st: State, sess: int)
    requires Inv(st) && ConnectTask(sess) in st.tasks
    ensures st.sess != Some(sess) ==> Inv(st.(tasks := st.tasks - {ConnectTask(sess)}))
    ensures st.sess == Some(sess) ==> st.conn.None? && st.reconnectTimer.None?
    ensures st.sess == Some(sess) ==> Core(st.(tasks := st.tasks - {ConnectTask(sess)}, connecting := false))
    ensures st.sess == Some(sess) ==> AllSettled(st.(tasks := st.tasks - {ConnectTask(sess)}, connecting := false))
  {
    var st0 := st.(tasks := st.tasks - {ConnectTask(sess)});
    var st1 := st0.(connecting := if st.sess == Some(sess) then false else st.connecting);
    forall q | Current(st, q) ensures Settled(st0, q) && Settled(st1, q) {
      assert Settled(st, q);
      assert forall id :: Awaits(st, id, q) <==> Awaits(st0, id, q);
      assert forall id :: Awaits(st, id, q) <==> Awaits(st1, id, q);
      WaitingSame(st, st0, q);
      WaitingSame(st, st1, q);
    }
  }

  lemma ScheduleKeeps(st: State)
    requires Core(st) && AllSettled(st)
    requires st.sess.Some? ==> st.conn.None? && !st.connecting
    ensures Inv(ScheduleReconnect(st))
  {
    ScheduleCore(st);
    var st' := ScheduleReconnect(st);
    forall q | Current(st', q) ensures Settled(st', q) {
      assert Settled(st, q);
      assert forall id :: Awaits(st, id, q) <==> Awaits(st', id, q);
      WaitingSame(st, st', q);
    }
  }

  lemma ScheduleCore(st: State)
    requires Core(st)
    ensures Core(ScheduleReconnect(st))
  {
  }

  // Subscribing every account on a new connection.

  /** Not yet subscribed on the new connection, and nobody disagrees. */
  ghost predicate Fresh(st: State, r: SubRef)
    requires r in st.recs
  {
    Idle(st, r) && st.recs[r].consumers != {} && Consistent(st.recs[r]) && Agrees(st, r)
  }

  lemma {:induction false} SubscribeAllSettles(st: State, conn: int, order: seq<SubRef>)
    requires Core(st) && st.conn == Some(conn)
    requires forall q :: Current(st, q) ==> Fresh(st, q)
    requires forall i :: 0 <= i < |order| ==> Current(st, order[i])
    requires forall i, j :: 0 <= i < j < |order| ==> order[i] != order[j]
    ensures var st' := SubscribeAll(st, conn, order);
      && Core(st') && st'.subs == st.subs && SameLink(st, st') && st'.sess == st.sess
      && (forall q :: Current(st', q) && q in order ==> Settled(st', q))
      && (forall q :: Current(st', q) && q !in order ==> Fresh(st', q))
    decreases |order|
  {
    if order != [] {
      var st1 := SubscribeAll(st, conn, Init(order));
      var r := Last(order);
      assert forall i :: 0 <= i < |order| - 1 ==> Init(order)[i] == order[i];
      SubscribeAllSettles(st, conn, Init(order));
      assert r !in Init(order);
      assert Current(st1, r);
      SubscribeServerCore(st1, conn, r);
      SubscribeServerCarries(st1, conn, r);
      SubscribeAllStep(st1, conn, order);
    }
  }

  lemma SubscribeAllStep(st: State, conn: int, order: seq<SubRef>)
    requires order != [] && Core(st) && st.conn == Some(conn) && Current(st, Last(order))
    requires Core(SubscribeServer(st, conn, Last(order)))
      && Elsewhere(st, SubscribeServer(st, conn, Last(order)), Last(order))
    requires Carried(SubscribeServer(st, conn, Last(order)), Last(order)) && Fresh(st, Last(order))
    requires forall q :: Current(st, q) && q in Init(order) ==> Settled(st, q)
    requires forall q :: Current(st, q) && q !in Init(order) ==> Fresh(st, q)
    ensures var st' := SubscribeServer(st, conn, Last(order));
      && (forall q :: Current(st', q) && q in order ==> Settled(st', q))
      && (forall q :: Current(st', q) && q !in order ==> Fresh(st', q))
  {
    var st' := SubscribeServer(st, conn, Last(order));
    forall q | Current(st', q) && q in order ensures Settled(st', q) {
      if q != Last(order) {
        assert q in Init(order);
        assert Same(st, st', q);
        SteadyFrame(st, st', q);
      }
    }
    forall q | Current(st', q) && q !in order ensures Fresh(st', q) {
      assert Same(st, st', q) && q !in Init(order);
      WaitingSame(st, st', q);
    }
  }

  lemma ConnectedKeeps(st: State, order: seq<SubRef>)
    requires Core(st) && AllSettled(st) && st.sess.Some? && st.conn.None? && !st.connecting && st.reconnectTimer.None?
    requires Enumerates(order, st.subs.Values)
    ensures Inv(SubscribeAll(st.(conn := Some(st.connSeq), connSeq := st.connSeq + 1, authSent := true), st.connSeq,
      order))
  {
    var st1 := st.(conn := Some(st.connSeq), connSeq := st.connSeq + 1, authSent := true);
    forall q | Current(st1, q) ensures Fresh(st1, q) {
      assert Settled(st, q);
      assert forall id :: !Awaits(st1, id, q);
    }
    forall i | 0 <= i < |order| ensures Current(st1, order[i]) { assert order[i] in st.subs.Values; }
    SubscribeAllSettles(st1, st.connSeq, order);
    var st' := SubscribeAll(st1, st.connSeq, order);
    forall q | Current(st', q) ensures q in order {
      assert q in st.subs.Values;
    }
  }

  lemma ReauthKeeps(st: State, conn: int, result: TokenResult, order: seq<SubRef>)
    requires Inv(st)
    requires Enumerates(order, st.subs.Values) && (forall i :: 0 <= i < |order| ==> order[i] in st.recs)
    ensures Inv(ReauthReturned(st, conn, result, order))
  {
    TaskDone(st, ReauthTask(conn));
    var st0 := st.(tasks := st.tasks - {ReauthTask(conn)});
    if st.conn == Some(conn) {
      match result
      case Refused => TerminateAllEnds(st0, TokenRefused, order);
      case Failed => ReportAllSettles(st0, Transient, order);
      case Token =>
    }
  }

  lemma RefreshKeeps(st: State, conn: int, r: SubRef, serverSub: ServerSub, result: TokenResult)
    requires Inv(st) && r in st.recs
    ensures Inv(RefreshReturned(st, conn, r, serverSub, result))
  {
    var t := RefreshTask(conn, r, serverSub);
    var st0 := st.(tasks := st.tasks - {t});
    TaskDone(st, t);
    if st.conn == Some(conn) && st.recs[r].sub == serverSub && Current(st, r) {
      if result != Token {
        var failure := if result == Refused then TokenRefused else Transient;
        ReportSettles(st0, r, failure);
        LinkedElsewhere(st0, Report(st0, r, failure), r);
      } else {
        RefreshPending(st0, r);
      }
    }
  }

  lemma RefreshPending(st: State, r: SubRef)
    requires Inv(st) && Current(st, r) && st.conn.Some?
    ensures Inv(st.(requestSeq := st.requestSeq + 1,
      pending := st.pending[st.requestSeq + 1 := Request(RequestRefresh, r)]))
  {
    hide Owned, Queued;
    var st' := st.(requestSeq := st.requestSeq + 1,
      pending := st.pending[st.requestSeq + 1 := Request(RequestRefresh, r)]);
    forall q | Current(st', q) ensures Settled(st', q) {
      assert Settled(st, q);
      forall id ensures Awaits(st, id, q) <==> Awaits(st', id, q) {}
      WaitingSame(st, st', q);
    }
  }

  // The answer to a subscribe's token fetch.

  /** The request of a returned fetch is gone or is the subscription's own pending subscribe, on this connection. */
  lemma FetchedRequest(st: State, conn: int, r: SubRef, id: RequestId)
    requires Inv(st) && SubscribeTask(conn, r, id) in st.tasks
    ensures id in st.pending ==>
      Awaits(st, id, r) && Current(st, r) && Settled(st, r) && st.conn == Some(conn) && id !in st.sent
    ensures id in st.pending ==>
      st.recs[r].sub == 0 && st.recs[r].retryTimer.None? && (forall i :: Awaits(st, i, r) ==> i == id)
  {
    if id in st.pending {
      assert Awaits(st, id, r);
      assert Current(st, r) && Settled(st, r);
    }
  }

  /** A request taken back, with the fetch that returned. */
  lemma WithdrawCore(st: State, conn: int, r: SubRef, id: RequestId)
    requires Core(st) && id in st.pending
    ensures Core(st.(tasks := st.tasks - {SubscribeTask(conn, r, id)}, pending := st.pending - {id}))
    ensures Core(st.(pending := st.pending - {id}))
  {
  }

  lemma WithdrawOthers(st: State, st': State, conn: int, r: SubRef, id: RequestId)
    requires Core(st) && AllSettledBut(st, r) && id in st.pending && st.pending[id].s == r
    requires st' == st.(pending := st.pending - {id})
      || st' == st.(tasks := st.tasks - {SubscribeTask(conn, r, id)}, pending := st.pending - {id})
    ensures AllSettledBut(st', r)
  {
    forall q | Current(st', q) && q != r ensures Settled(st', q) {
      assert Settled(st, q);
      forall i ensures Awaits(st, i, q) <==> Awaits(st', i, q) {}
      WaitingSame(st, st', q);
      if st.conn.Some? {
        forall i | Awaits(st', i, q) ensures Awake(st', i, q) { assert Awaits(st, i, q) && Awake(st, i, q); }
      }
    }
  }

  lemma SubscribeTokenKeeps(st: State, conn: int, r: SubRef, id: RequestId, result: TokenResult)
    requires Inv(st) && r in st.recs && SubscribeTask(conn, r, id) in st.tasks
    ensures Inv(SubscribeTokenReturned(st, conn, r, id, result))
  {
    FetchedRequest(st, conn, r, id);
    if id !in st.pending {
      FetchOfGone(st, conn, r, id);
    } else if result == Token {
      SubscribeWritten(st, conn, r, id);
    } else {
      var st1 := st.(tasks := st.tasks - {SubscribeTask(conn, r, id)}, pending := st.pending - {id});
      WithdrawCore(st, conn, r, id);
      WithdrawOthers(st, st1, conn, r, id);
      if result == Refused {
        TerminateSettles(st1, r, TokenRefused);
        LinkedElsewhere(st1, Terminate(st1, r, TokenRefused), r);
      } else {
        forall i ensures !Awaits(st1, i, r) { assert Awaits(st1, i, r) ==> Awaits(st, i, r); }
        ReportThenRetry(st1, conn, r, Transient);
      }
    }
  }

  lemma FetchOfGone(st: State, conn: int, r: SubRef, id: RequestId)
    requires Inv(st) && id !in st.pending
    ensures Inv(st.(tasks := st.tasks - {SubscribeTask(conn, r, id)}))
  {
    var st' := st.(tasks := st.tasks - {SubscribeTask(conn, r, id)});
    forall q | Current(st', q) ensures Settled(st', q) {
      assert Settled(st, q);
      assert forall i :: Awaits(st', i, q) <==> Awaits(st, i, q);
      WaitingSame(st, st', q);
      if st.conn.Some? {
        forall i | Awaits(st', i, q) ensures Awake(st', i, q) { assert Awaits(st, i, q) && Awake(st, i, q); }
      }
    }
  }

  /** Reporting to an idle subscription and arming its retry timer, even if the report ended it. */
  lemma ReportThenRetry(st: State, conn: int, r: SubRef, failure: Failure)
    requires Core(st) && AllSettledBut(st, r) && Linked(st) && Current(st, r) && st.conn == Some(conn)
    requires Idle(st, r) && st.recs[r].consumers != {} && Consistent(st.recs[r]) && Agrees(st, r)
    ensures Inv(RetrySubscribe(Report(st, r, failure), conn, r))
    ensures !Current(Report(st, r, failure), r) ==> Inv(Report(st, r, failure))
    ensures var st1 := Report(st, r, failure); Current(st1, r) ==> st1.conn == st.conn && st1.recs[r].sub == 0
  {
    hide Deliver, RetrySubscribe, Core, Linked, Settled;
    var st1 := Report(st, r, failure);
    var st2 := RetrySubscribe(st1, conn, r);
    DeliverCore(st, r, StreamError(failure));
    SettledElsewhere(st, st1, r);
    LinkedElsewhere(st, st1, r);
    RetryCore(st1, conn, r);
    SettledElsewhere(st1, st2, r);
    LinkedElsewhere(st1, st2, r);
    if Current(st1, r) {
      ReportedIdle(st, st1, r, failure);
      RetrySettles(st1, conn, r);
    }
  }

  /** A report an idle subscription survives leaves it idle and its consumers agreed. */
  lemma RetrySettles(st: State, conn: int, r: SubRef)
    requires Core(st) && Current(st, r) && st.conn == Some(conn)
    requires Idle(st, r) && st.recs[r].consumers != {} && Consistent(st.recs[r]) && Agrees(st, r)
    ensures Settled(RetrySubscribe(st, conn, r), r)
  {
    hide Core, Carried, FoldEvent;
    RetryCarries(st, conn, r);
  }

  lemma ReportedIdle(st: State, st1: State, r: SubRef, failure: Failure)
    requires Core(st) && r in st.recs && st1 == Report(st, r, failure) && Current(st1, r)
    requires Idle(st, r) && st.recs[r].consumers != {} && Consistent(st.recs[r]) && Agrees(st, r)
    ensures Idle(st1, r) && st1.recs[r].consumers != {} && Consistent(st1.recs[r]) && Agrees(st1, r)
      && st1.conn == st.conn
  {
    hide Owned, Routed, Ticketed;
    DeliverSurvives(st, st1, r, StreamError(failure));
    SurvivorAgrees(st, st1, r, StreamError(failure));
    assert forall i :: Awaits(st, i, r) <==> Awaits(st1, i, r);
    WaitingSame(st, st1, r);
  }

  lemma SubscribeWritten(st: State, conn: int, r: SubRef, id: RequestId)
    requires Inv(st) && SubscribeTask(conn, r, id) in st.tasks && id in st.pending && r in st.recs
    ensures Inv(SubscribeTokenReturned(st, conn, r, id, Token))
  {
    hide Owned, Routed, Ticketed, Queued;
    var st' := SubscribeTokenReturned(st, conn, r, id, Token);
    FetchedRequest(st, conn, r, id);
    WrittenCore(st, conn, r, id);
    forall q | Current(st', q) ensures Settled(st', q) {
      assert Current(st, q) && Settled(st, q);
      assert forall i :: Awaits(st', i, q) <==> Awaits(st, i, q);
      WaitingSame(st, st', q);
      forall i | Awaits(st', i, q) ensures Awake(st', i, q) { assert Awaits(st, i, q) && Awake(st, i, q); }
      if q != r { assert !Awaits(st, id, q); }
    }
  }

  lemma WrittenCore(st: State, conn: int, r: SubRef, id: RequestId)
    requires Inv(st) && Awaits(st, id, r) && Current(st, r) && st.conn == Some(conn)
    ensures Core(SubscribeTokenReturned(st, conn, r, id, Token))
  {
    var st' := SubscribeTokenReturned(st, conn, r, id, Token);
    PatchOwned(st.subs, st.recs, st.consumers, r, st'.recs[r]);
    RouteSame(st.subs, st.recs, st.bySub, st.pending, st.requestSeq, r, st'.recs[r]);
  }
}
