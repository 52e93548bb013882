/** Answers to requests, errors and the socket that closes. */
module OrderStreamControl {
  import opened Basics
  import opened OrderStreamModel
  import opened OrderStreamInvariant
  import opened OrderStreamHelpers
  import opened OrderStreamHandlers
  import opened OrderStreamFrames

  // ---------- Subscribed ----------

  lemma StrayConfirmationKeeps(st: State)
    requires Inv(st) && st.conn.Some?
    ensures Inv(Unsubscribe(st))
  {
    var st' := Unsubscribe(st);
    forall q | Current(st', q) ensures Settled(st', q) {
      assert Settled(st, q);
      SteadyFrame(st, st', q) by { assert forall id :: Awaits(st, id, q) <==> Awaits(st', id, q); }
    }
  }

  /** The subscription a confirmation made live, before its consumers are told. */
  function Confirmed(st: State, id: RequestId, sid: ServerSub): State
    requires id in st.pending && st.pending[id].s in st.recs
  {
    var r := st.pending[id].s;
    WithRec(st, r, st.recs[r].(ackTimer := None, confirmed := true, sub := sid, seqNo := 0, ready := false)).(
      pending := st.pending - {id}, bySub := st.bySub[sid := r])
  }

  lemma SubscribedInOrder(st: State, id: RequestId, sid: ServerSub)
    requires Rooted(st) && id in st.pending && st.pending[id].kind == RequestSubscribe
    ensures var r := st.pending[id].s;
      OnSubscribed(st, id, sid) == NotifyFresh(NotifyConnected(Confirmed(st, id, sid), r), r)
  {
    hide NotifyConnected, NotifyFresh;
  }

  lemma ConfirmedCore(st: State, id: RequestId, sid: ServerSub)
    requires Core(st) && id in st.pending && sid != 0 && sid !in st.bySub
    requires st.recs[st.pending[id].s].sub == 0
    ensures Core(Confirmed(st, id, sid))
  {
    hide Owned, Queued, Dialled;
    var r := st.pending[id].s;
    var st' := Confirmed(st, id, sid);
    PatchOwned(st.subs, st.recs, st.consumers, r, st'.recs[r]);
    forall q ensures Current(st, q) <==> Current(st', q) {}
  }

  lemma ConfirmedOthers(st: State, id: RequestId, sid: ServerSub)
    requires Inv(st) && id in st.pending
    ensures AllSettledBut(Confirmed(st, id, sid), st.pending[id].s)
  {
    var r := st.pending[id].s;
    var st' := Confirmed(st, id, sid);
    forall q | Current(st', q) && q != r ensures Settled(st', q) {
      assert Settled(st, q);
      forall i ensures Awaits(st, i, q) <==> Awaits(st', i, q) {}
      SteadyFrame(st, st', q);
    }
  }

  lemma ConfirmedCarried(st: State, id: RequestId, sid: ServerSub)
    requires Inv(st) && id in st.pending && st.pending[id].kind == RequestSubscribe && sid != 0
    ensures var r := st.pending[id].s;
      Settled(st, r) && st.recs[r].sub == 0 && st.conn.Some? && Carried(Confirmed(st, id, sid), r)
  {
    var r := st.pending[id].s;
    var st' := Confirmed(st, id, sid);
    assert Current(st, r);
    assert Awaits(st, id, r);
    forall i ensures !Awaits(st', i, r) { assert Awaits(st', i, r) ==> Awaits(st, i, r); }
  }

  lemma SubscribedKeeps(st: State, id: RequestId, sid: ServerSub)
    requires Inv(st) && Rooted(st) && st.conn.Some?
    requires id in st.pending && st.pending[id].kind == RequestSubscribe ==> sid != 0 && sid !in st.bySub
    ensures Inv(OnSubscribed(st, id, sid))
  {
    if id !in st.pending || st.pending[id].kind != RequestSubscribe {
      StrayConfirmationKeeps(st);
    } else {
      var r := st.pending[id].s;
      var st1 := Confirmed(st, id, sid);
      ConfirmedCarried(st, id, sid);
      ConfirmedCore(st, id, sid);
      ConfirmedOthers(st, id, sid);
      AnnounceSettles(st1, r, st1.recs[r].(state := SubConnected), Connected);
      var st2 := NotifyConnected(st1, r);
      LinkedElsewhere(st1, st2, r);
      FreshKeeps(st2, r);
    }
  }

  lemma FreshKeeps(st: State, r: SubRef)
    requires Inv(st) && r in st.recs
    ensures Inv(NotifyFresh(st, r))
  {
    if st.recs[r].stale {
      if Current(st, r) { assert Settled(st, r); }
      AnnounceSettles(st, r, FreshRec(st.recs[r]), Stale(false, 0, []));
      LinkedElsewhere(st, NotifyFresh(st, r), r);
    }
  }

  // ---------- Requests answered otherwise ----------

  lemma RefreshAnsweredKeeps(st: State, id: RequestId)
    requires Inv(st) && (id in st.pending ==> st.pending[id].kind == RequestRefresh)
    ensures Inv(st.(pending := st.pending - {id}))
  {
    var st' := st.(pending := st.pending - {id});
    forall q | Current(st', q) ensures Settled(st', q) {
      assert Settled(st, q);
      forall i ensures Awaits(st, i, q) <==> Awaits(st', i, q) {}
      SteadyFrame(st, st', q);
    }
  }

  lemma UnsubscribedKeeps(st: State, id: RequestId)
    requires Inv(st)
    ensures Inv(st.(unsubscribing := st.unsubscribing - {id}))
  {
    var st' := st.(unsubscribing := st.unsubscribing - {id});
    forall q | Current(st', q) ensures Settled(st', q) {
      assert Settled(st, q);
      SteadyFrame(st, st', q) by { assert forall i :: Awaits(st, i, q) <==> Awaits(st', i, q); }
    }
  }

  lemma SubscribeErrorKeeps(st: State, conn: int, id: RequestId, code: ErrorCode)
    requires Inv(st) && st.conn == Some(conn) && id in st.pending && st.pending[id].kind == RequestSubscribe
      && st.pending[id].s in st.recs
    ensures Inv(SubscribeError(st.(pending := st.pending - {id}), conn, st.pending[id].s, code))
  {
    var r := st.pending[id].s;
    var st1 := st.(pending := st.pending - {id});
    assert Awaits(st, id, r);
    assert Current(st, r) && Settled(st, r);
    WithdrawCore(st, conn, r, id);
    WithdrawOthers(st, st1, conn, r, id);
    if code == CursorInvalid {
      var st2 := WithRec(st1, r, st.recs[r].(cursor := 0));
      PatchCore(st1, r, st2.recs[r]);
      SettledElsewhere(st1, st2, r);
      forall i ensures !Awaits(st2, i, r) { assert Awaits(st2, i, r) ==> Awaits(st, i, r); }
      SubscribeServerSettles(st2, conn, r);
    } else {
      TerminateSettles(st1, r, RequestFailed(code));
      LinkedElsewhere(st1, Terminate(st1, r, RequestFailed(code)), r);
    }
  }

  /** An error for a subscription that is live, or that says nothing about its server subscription. */
  lemma SubscriptionErrorKeeps(st: State, conn: int, r: SubRef, serverSub: ServerSub, code: ErrorCode)
    requires Inv(st) && st.conn == Some(conn) && Current(st, r)
    requires code == SubscriptionUnknown && st.recs[r].sub == serverSub ==> serverSub != 0
    ensures Inv(SubscriptionError(st, conn, r, serverSub, code))
  {
    if code == SubscriptionUnknown && st.recs[r].sub == serverSub {
      LiveSub(st, serverSub);
      ResubscribeKeeps(st, conn, r);
    } else {
      ReportSettles(st, r, RequestFailed(code));
      LinkedElsewhere(st, Report(st, r, RequestFailed(code)), r);
    }
  }

  lemma RequestErrorKeeps(st: State, conn: int, serverSub: ServerSub, id: RequestId, code: ErrorCode,
      order: seq<SubRef>)
    requires Inv(st) && Rooted(st) && st.conn == Some(conn)
    requires forall i :: 0 <= i < |order| ==> order[i] in st.recs
    requires id != 0 && id in st.pending && st.pending[id].kind == RequestRefresh && code == SubscriptionUnknown ==>
      serverSub != 0
    ensures Inv(OnRequestError(st, conn, serverSub, id, code, order))
  {
    if id == 0 {
      if serverSub in st.bySub {
        LiveSub(st, serverSub);
        SubscriptionErrorKeeps(st, conn, st.bySub[serverSub], serverSub, code);
      } else {
        ReportAllSettles(st, RequestFailed(code), order);
      }
    } else if id in st.unsubscribing {
      UnsubscribedKeeps(st, id);
    } else if id in st.pending {
      if st.pending[id].kind == RequestSubscribe {
        SubscribeErrorKeeps(st, conn, id, code);
      } else {
        RefreshAnsweredKeeps(st, id);
        SubscriptionErrorKeeps(st.(pending := st.pending - {id}), conn, st.pending[id].s, serverSub, code);
      }
    }
  }

  // ---------- The socket closes ----------

  /** A subscription of a lost connection whose consumers have yet to hear of it. */
  ghost predicate Lapsed(st: State, r: SubRef)
    requires r in st.recs
  {
    && Carried(st, r)
    && Consistent(st.recs[r].(state := SubDisconnected))
    && (st.recs[r].state == SubConnected ==>
          forall c :: c in st.recs[r].consumers && c in st.consumers && !st.consumers[c].closed ==>
            FoldEvent(Folded(st.consumers[c].log), Disconnected) == SharedOf(st.recs[r].(state := SubDisconnected)))
    && (st.recs[r].state != SubConnected ==> Agrees(st, r))
  }

  lemma DetachedOwned(subs: map<Account, SubRef>, recs: map<SubRef, Sub>, consumers: map<ConsumerRef, Consumer>)
    requires Owned(subs, recs, consumers)
    ensures Owned(subs, DetachedIn(subs, recs), consumers)
  {
  }

  lemma DetachCore(st: State)
    requires Core(st) && !st.connecting && st.reconnectTimer.None?
    ensures Core(Detach(st))
    ensures forall q :: Current(st, q) <==> Current(Detach(st), q)
  {
    DetachedOwned(st.subs, st.recs, st.consumers);
    hide Owned, Queued;
  }

  lemma DetachLapses(st: State, st': State, stable: bool)
    requires Inv(st) && st.conn.Some?
    requires st' == ScheduleReconnect(if stable then Detach(st).(reconnectAttempt := 0) else Detach(st))
    ensures Core(st') && Linked(st')
    ensures forall q :: Current(st', q) ==> Lapsed(st', q)
  {
    hide Owned, Routed, Queued, Ticketed, Dialled;
    DetachCore(st);
    forall q | Current(st', q) ensures Lapsed(st', q) {
      assert Current(st, q) && Settled(st, q);
      assert forall id :: !Awaits(st', id, q);
    }
  }

  lemma {:induction false} NotifyAllSettles(st: State, order: seq<SubRef>)
    requires Core(st) && Linked(st) && st.conn.None?
    requires forall i :: 0 <= i < |order| ==> order[i] in st.recs
    requires forall i, j :: 0 <= i < j < |order| ==> order[i] != order[j]
    requires forall q :: Current(st, q) ==> Lapsed(st, q)
    ensures var st' := NotifyAllDisconnected(st, order);
      && Core(st') && Linked(st')
      && (forall q :: Current(st', q) ==> Current(st, q))
      && (forall q :: Current(st', q) && q in order ==> Settled(st', q))
      && (forall q :: Current(st', q) && q !in order ==> Lapsed(st', q))
    decreases |order|
  {
    if order != [] {
      var st1 := NotifyAllDisconnected(st, Init(order));
      assert forall i :: 0 <= i < |order| - 1 ==> Init(order)[i] == order[i];
      NotifyAllSettles(st, Init(order));
      NotifyStep(st1, order);
    }
  }

  lemma NotifyStep(st: State, order: seq<SubRef>)
    requires order != [] && Core(st) && Linked(st) && Last(order) in st.recs
    requires forall q :: Current(st, q) && q in Init(order) ==> Settled(st, q)
    requires forall q :: Current(st, q) && q !in Init(order) ==> Lapsed(st, q)
    requires Last(order) !in Init(order)
    ensures var st' := NotifyDisconnected(st, Last(order));
      && Core(st') && Linked(st')
      && (forall q :: Current(st', q) ==> Current(st, q))
      && (forall q :: Current(st', q) && q in order ==> Settled(st', q))
      && (forall q :: Current(st', q) && q !in order ==> Lapsed(st', q))
  {
    var r := Last(order);
    var st' := NotifyDisconnected(st, r);
    NotifyOneCore(st, r);
    LinkedElsewhere(st, st', r);
    forall q | Current(st', q) && q != r
      ensures q in order ==> Settled(st', q)
      ensures q !in order ==> Lapsed(st', q)
    {
      assert Current(st, q) && Same(st, st', q);
      assert q in order <==> q in Init(order);
      LapsedFrame(st, st', q);
    }
    if Current(st', r) { NotifyOneSettles(st, r); }
  }

  lemma LapsedFrame(st: State, st': State, q: SubRef)
    requires q in st.recs && Grows(st, st') && Same(st, st', q) && st.conn == st'.conn
    ensures Settled(st, q) ==> Settled(st', q)
    ensures Lapsed(st, q) ==> Lapsed(st', q)
  {
    if Settled(st, q) { SteadyFrame(st, st', q); }
    assert forall id :: Awaits(st, id, q) <==> Awaits(st', id, q);
    WaitingSame(st, st', q);
    if Lapsed(st, q) && st.conn.Some? {
      forall i | Awaits(st', i, q) ensures Awake(st', i, q) { assert Awaits(st, i, q) && Awake(st, i, q); }
    }
  }

  lemma NotifyOneCore(st: State, r: SubRef)
    requires Core(st) && r in st.recs
    ensures Core(NotifyDisconnected(st, r)) && Elsewhere(st, NotifyDisconnected(st, r), r)
  {
    if st.recs[r].state == SubConnected {
      var st1 := WithState(st, r, SubDisconnected);
      PatchCore(st, r, st1.recs[r]);
      DeliverCore(st1, r, Disconnected);
      ElsewhereTrans(st, st1, NotifyDisconnected(st, r), r);
    } else {
      ElsewhereRefl(st, r);
    }
  }

  lemma NotifyOneSettles(st: State, r: SubRef)
    requires Core(st) && r in st.recs && Current(NotifyDisconnected(st, r), r) && Current(st, r)
    requires Lapsed(st, r)
    ensures Settled(NotifyDisconnected(st, r), r)
  {
    if st.recs[r].state == SubConnected {
      var st1 := WithState(st, r, SubDisconnected);
      var st' := NotifyDisconnected(st, r);
      PatchCore(st, r, st1.recs[r]);
      PatchCarried(st, r, st1.recs[r]);
      DeliverSurvives(st1, st', r, Disconnected);
      SurvivorCarried(st1, st', r, Disconnected);
      SurvivorAgrees(st1, st', r, Disconnected);
    }
  }

  lemma ClosedKeeps(st: State, conn: int, code: int, stable: bool, order: seq<SubRef>)
    requires Inv(st) && Enumerates(order, st.subs.Values) && (forall i :: 0 <= i < |order| ==> order[i] in st.recs)
    ensures Inv(SocketClosed(st, conn, code, stable, order))
  {
    if st.conn == Some(conn) {
      DetachCore(st);
      var st2 := if stable then Detach(st).(reconnectAttempt := 0) else Detach(st);
      if code == 4400 || code == 4403 {
        TerminateAllEnds(st2, ConnectionClosed(code), order);
      } else {
        var st3 := ScheduleReconnect(st2);
        DetachLapses(st, st3, stable);
        NotifyAllSettles(st3, order);
        forall q | Current(st3, q) ensures q in order { assert q in st.subs.Values; }
      }
    }
  }

  // ---------- Any frame ----------

  lemma FrameKeeps(st: State, conn: int, msg: Incoming, order: seq<SubRef>)
    requires Inv(st) && Rooted(st)
    requires Enumerates(order, st.subs.Values) && (forall i :: 0 <= i < |order| ==> order[i] in st.recs)
    requires st.conn == Some(conn) && msg.Message? ==> ControlKept(st, msg)
    ensures Inv(FrameArrived(st, conn, msg, order))
  {
    if st.conn == Some(conn) {
      if msg.Unreadable? {
        ReportAllSettles(st, BadFrame, order);
      } else {
        match msg.frame
        case Subscribed(id) => SubscribedKeeps(st, id, msg.sub);
        case SubscribeRefreshed(id) => RefreshAnsweredKeeps(st, id);
        case Error(id, code) => RequestErrorKeeps(st, conn, msg.sub, id, code, order);
        case TokenExpiring => NewTaskKeeps(st, ReauthTask(conn));
        case Unsubscribed(id) =>
          if id in st.unsubscribing { UnsubscribedKeeps(st, id); }
          else { SubFrameKeeps(st, conn, msg.sub, msg.seqNo, msg.frame); }
        case _ => SubFrameKeeps(st, conn, msg.sub, msg.seqNo, msg.frame);
      }
    }
  }

  /**
   What the client relies on of the server's control messages: a confirmation
   answers a written subscribe and names a new, non-empty server subscription;
   a refresh answer answers a refresh; and an error saying that a refreshed
   subscription is unknown names it.
   */
  predicate ControlKept(st: State, msg: Incoming)
    requires msg.Message?
  {
    match msg.frame
    case Subscribed(id) =>
      id in st.pending && st.pending[id].kind == RequestSubscribe ==>
        msg.sub != 0 && msg.sub !in st.bySub && id in st.sent
    case SubscribeRefreshed(id) => id in st.pending ==> st.pending[id].kind == RequestRefresh
    case Error(id, code) =>
      id != 0 && id in st.pending && st.pending[id].kind == RequestRefresh && code == SubscriptionUnknown ==>
        msg.sub != 0
    case _ => true
  }
}
