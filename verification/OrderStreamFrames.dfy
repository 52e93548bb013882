/** Timers that fire, frames that arrive and the socket that closes. */
module OrderStreamFrames {
  import opened Basics
  import opened OrderStreamModel
  import opened OrderStreamInvariant
  import opened OrderStreamHelpers
  import opened OrderStreamRequests
  import opened OrderStreamHandlers

  // ---------- Timers ----------

  lemma ReconnectKeeps(st: State, timer: int)
    requires Inv(st)
    ensures Inv(ReconnectFired(st, timer))
  {
    if st.reconnectTimer == Some(timer) {
      var st1 := st.(reconnectTimer := None);
      forall q | Current(st1, q) ensures Settled(st1, q) {
        assert Settled(st, q);
        assert forall id :: Awaits(st, id, q) <==> Awaits(st1, id, q);
        WaitingSame(st, st1, q);
      }
      OpenKeeps(st1);
    }
  }

  lemma RetryKeeps(st: State, r: SubRef, timer: Timer)
    requires Inv(st) && r in st.recs
    ensures Inv(RetryFired(st, r, timer))
  {
    if st.recs[r].retryTimer == Some(timer) {
      var st1 := WithRec(st, r, st.recs[r].(retryTimer := None));
      PatchCore(st, r, st1.recs[r]);
      SettledElsewhere(st, st1, r);
      if Current(st, r) {
        assert Settled(st, r);
        assert forall id :: Awaits(st, id, r) <==> Awaits(st1, id, r);
        WaitingSame(st, st1, r);
        SubscribeServerSettles(st1, timer.conn, r);
      }
    }
  }

  lemma AckKeeps(st: State, r: SubRef, timer: Timer)
    requires Inv(st) && r in st.recs
    ensures Inv(AckFired(st, r, timer))
  {
    if st.recs[r].ackTimer == Some(timer) {
      var id := timer.request;
      var st1 := WithRec(st, r, st.recs[r].(ackTimer := None));
      PatchCore(st, r, st1.recs[r]);
      SettledElsewhere(st, st1, r);
      LinkedElsewhere(st, st1, r);
      if id in st.pending && st.pending[id].s == r {
        assert Current(st, r) && Settled(st, r);
        ExpireKeeps(st, st1, r, timer);
      } else {
        AckOfOther(st, r, timer);
      }
    }
  }

  /** A confirmation timer of a request that is no longer pending is not what the subscription waits for. */
  lemma AckOfOther(st: State, r: SubRef, timer: Timer)
    requires Inv(st) && r in st.recs && st.recs[r].ackTimer == Some(timer)
    requires !Awaits(st, timer.request, r)
    ensures Current(st, r) ==> Settled(WithRec(st, r, st.recs[r].(ackTimer := None)), r)
  {
    var st1 := WithRec(st, r, st.recs[r].(ackTimer := None));
    if Current(st, r) {
      assert Settled(st, r);
      assert forall id :: Awaits(st, id, r) <==> Awaits(st1, id, r);
      WaitingSame(st, st1, r);
      if st.conn.Some? {
        forall id | Awaits(st1, id, r) ensures Awake(st1, id, r) { assert Awaits(st, id, r) && Awake(st, id, r); }
      }
    }
  }

  /** The pending subscribe was never confirmed: the subscription ends if it never was, and retries otherwise. */
  lemma ExpireKeeps(st: State, st1: State, r: SubRef, timer: Timer)
    requires Inv(st) && Current(st, r) && Settled(st, r) && st.conn.Some?
    requires st.recs[r].ackTimer == Some(timer) && timer.request in st.pending && st.pending[timer.request].s == r
    requires st1 == WithRec(st, r, st.recs[r].(ackTimer := None))
    requires Core(st1) && AllSettledBut(st1, r) && Linked(st1)
    ensures Inv(ExpireSubscribe(st1, timer.conn, r, timer.request))
  {
    hide Owned, Queued, Dialled, Report, RetrySubscribe, Terminate;
    var id := timer.request;
    assert Awaits(st, id, r);
    if !st1.recs[r].confirmed {
      TerminateSettles(st1, r, SubscribeTimeout);
      LinkedElsewhere(st1, Terminate(st1, r, SubscribeTimeout), r);
    } else {
      var st2 := st1.(pending := st1.pending - {id});
      WithdrawCore(st1, timer.conn, r, id);
      WithdrawOthers(st1, st2, timer.conn, r, id);
      forall i ensures !Awaits(st2, i, r) { assert Awaits(st2, i, r) ==> Awaits(st, i, r); }
      ReportThenRetry(st2, timer.conn, r, SubscribeTimeout);
    }
  }

  // ---------- Frames ----------

  /** A server subscription that delivers frames belongs to a settled, connected subscription. */
  lemma LiveSub(st: State, sid: ServerSub)
    requires Inv(st) && sid in st.bySub
    ensures var r := st.bySub[sid];
      Current(st, r) && Settled(st, r) && st.recs[r].sub == sid && sid != 0 && st.conn.Some? && Dropping(st, r)
  {
    var r := st.bySub[sid];
    assert Current(st, r);
    assert Settled(st, r);
  }

  /** A record edit consumers need not hear of. */
  lemma QuietEditKeeps(st: State, r: SubRef, s: Sub)
    requires Inv(st) && Current(st, r) && Settled(st, r) && st.recs[r].sub != 0 && st.conn.Some?
    requires s.account == st.recs[r].account && s.consumers == st.recs[r].consumers && s.sub == st.recs[r].sub
    requires s.retryTimer == st.recs[r].retryTimer && s.ackTimer == st.recs[r].ackTimer
      && s.confirmed == st.recs[r].confirmed
    requires SharedOf(s) == SharedOf(st.recs[r]) && s.state == st.recs[r].state && s.retries >= 0
    ensures Inv(WithRec(st, r, s)) && Settled(WithRec(st, r, s), r) && Current(WithRec(st, r, s), r)
  {
    PatchCore(st, r, s);
    PatchCarried(st, r, s);
    SettledElsewhere(st, WithRec(st, r, s), r);
  }

  /** A record edit announced by `event`. */
  lemma AnnouncedKeeps(st: State, r: SubRef, s: Sub, event: StreamEvent)
    requires Inv(st) && Current(st, r) && Settled(st, r) && st.recs[r].sub != 0 && st.conn.Some?
    requires s.account == st.recs[r].account && s.consumers == st.recs[r].consumers && s.sub == st.recs[r].sub
    requires s.retryTimer == st.recs[r].retryTimer && s.ackTimer == st.recs[r].ackTimer
    requires Consistent(s) && FoldEvent(SharedOf(st.recs[r]), event) == SharedOf(s)
    ensures Inv(Deliver(WithRec(st, r, s), r, event))
  {
    AnnounceSettles(st, r, s, event);
    LinkedElsewhere(st, Deliver(WithRec(st, r, s), r, event), r);
  }

  lemma {:induction false} UpsertKeyed(m: OrderMap, orders: seq<Order>)
    requires forall k :: k in m ==> m[k].id == k
    ensures forall k :: k in Upsert(m, orders) ==> Upsert(m, orders)[k].id == k
    decreases |orders|
  {
    if orders != [] { UpsertKeyed(m, Init(orders)); }
  }

  lemma ResubscribeKeeps(st: State, conn: int, r: SubRef)
    requires Inv(st) && Current(st, r) && st.conn == Some(conn) && Dropping(st, r)
    ensures Inv(Resubscribe(st, conn, r)) && Inv(ServerEnded(st, conn, r))
  {
    ResubscribeSettles(st, conn, r);
    LinkedElsewhere(st, Resubscribe(st, conn, r), r);
    ServerEndedSettles(st, conn, r);
    LinkedElsewhere(st, ServerEnded(st, conn, r), r);
  }

  lemma EndSnapshotKeeps(st: State, conn: int, r: SubRef, count: int, cursor: Cursor)
    requires Inv(st) && Current(st, r) && Settled(st, r) && st.recs[r].sub != 0 && st.conn == Some(conn)
    ensures Inv(EndSnapshot(st, conn, r, count, cursor))
  {
    var s := st.recs[r];
    if !s.staging || |s.staged| != count {
      var s1 := s.(staging := false, staged := [], cursor := 0);
      QuietEditKeeps(st, r, s1);
      ResubscribeKeeps(WithRec(st, r, s1), conn, r);
    } else {
      UpsertKeyed(map[], s.staged);
      AnnouncedKeeps(st, r, SnapshotRec(s, cursor), Snapshot(s.staged));
    }
  }

  lemma UnitKeeps(st: State, r: SubRef, changed: seq<Order>, removed: seq<int>, next: Cursor)
    requires Inv(st) && Current(st, r) && Settled(st, r) && st.recs[r].sub != 0 && st.conn.Some?
    ensures Inv(Deliver(WithRec(st, r, UnitRec(st.recs[r], changed, removed, next)), r, Unit(changed, removed)))
  {
    if st.recs[r].orders.Some? { UpsertKeyed(st.recs[r].orders.value, changed); }
    AnnouncedKeeps(st, r, UnitRec(st.recs[r], changed, removed, next), Unit(changed, removed));
  }

  lemma ReadyKeeps(st: State, r: SubRef)
    requires Inv(st) && Current(st, r) && Settled(st, r) && st.recs[r].sub != 0 && st.conn.Some?
    ensures Inv(BecomeReady(st, r))
  {
    var s := st.recs[r];
    if s.ready { QuietEditKeeps(st, r, s.(retries := 0)); }
    else { AnnouncedKeeps(st, r, s.(retries := 0, ready := true), Ready); }
  }

  lemma StaleKeeps(st: State, r: SubRef, reason: int, ids: seq<int>)
    requires Inv(st) && Current(st, r) && Settled(st, r) && st.recs[r].sub != 0 && st.conn.Some?
    ensures Inv(Deliver(WithRec(st, r, st.recs[r].(stale := true, staleReason := reason, staleOrderIds := ids)), r,
      Stale(true, reason, ids)))
    ensures Inv(Deliver(WithRec(st, r, FreshRec(st.recs[r])), r, Stale(false, 0, [])))
  {
    var s := st.recs[r];
    AnnouncedKeeps(st, r, s.(stale := true, staleReason := reason, staleOrderIds := ids), Stale(true, reason, ids));
    AnnouncedKeeps(st, r, FreshRec(s), Stale(false, 0, []));
  }

  /** Frames consumers are told of at once. */
  predicate Announced(frame: Frame) {
    frame.UnitFrame? || frame.ReadyFrame? || frame.Unavailable? || frame.Available?
  }

  predicate IsQuiet(frame: Frame) {
    frame.SnapshotBegin? || frame.SnapshotPage? || frame.Covered? || frame.ResyncRequired?
  }

  lemma QuietFrameKeeps(st: State, conn: int, r: SubRef, frame: Frame)
    requires Inv(st) && Current(st, r) && Settled(st, r) && st.recs[r].sub != 0 && st.conn == Some(conn)
      && IsQuiet(frame)
    ensures Inv(Process(st, conn, r, frame))
  {
    hide Core, AllSettled, Linked, Agrees, Carried;
    var s := st.recs[r];
    var s' := match frame
      case SnapshotBegin => s.(staging := true, staged := [])
      case SnapshotPage(orders) => if s.staging then s.(staged := s.staged + orders) else s
      case Covered(cursor) => s.(cursor := cursor, retries := 0)
      case _ => s.(staging := false, staged := []);
    QuietEditKeeps(st, r, s');
  }

  lemma ProcessKeeps(st: State, conn: int, r: SubRef, frame: Frame)
    requires Inv(st) && Current(st, r) && Settled(st, r) && st.recs[r].sub != 0 && st.conn == Some(conn)
    ensures Inv(Process(st, conn, r, frame))
  {
    hide Core, AllSettled, Linked, Agrees, Deliver, EndSnapshot, Resubscribe;
    if IsQuiet(frame) {
      QuietFrameKeeps(st, conn, r, frame);
    } else {
      match frame
      case SnapshotEnd(count, cursor) => EndSnapshotKeeps(st, conn, r, count, cursor);
      case UnitFrame(changed, removed, nextCursor) => UnitKeeps(st, r, changed, removed, nextCursor);
      case ReadyFrame => ReadyKeeps(st, r);
      case Unavailable(reason, ids) => StaleKeeps(st, r, reason, ids);
      case Available => StaleKeeps(st, r, 0, []);
      case SubscribeExpiring => NewTaskKeeps(st, RefreshTask(conn, r, st.recs[r].sub));
      case Unsubscribed(_) => ResubscribeKeeps(st, conn, r);
      case _ =>
    }
  }

  lemma NewTaskKeeps(st: State, t: Task)
    requires Inv(st) && (t.RefreshTask? || t.ReauthTask?)
    ensures Inv(st.(tasks := st.tasks + {t}))
  {
    var st' := st.(tasks := st.tasks + {t});
    forall q | Current(st', q) ensures Settled(st', q) {
      assert Settled(st, q);
      SteadyFrame(st, st', q) by { assert forall id :: Awaits(st, id, q) <==> Awaits(st', id, q); }
    }
  }

  lemma SubFrameKeeps(st: State, conn: int, sid: ServerSub, seqNo: int, frame: Frame)
    requires Inv(st) && Rooted(st) && st.conn == Some(conn)
    ensures Inv(OnSubFrame(st, conn, sid, seqNo, frame))
  {
    hide Process, Resubscribe, Inv, Settled, Dropping;
    if sid in st.bySub {
      var r := st.bySub[sid];
      LiveSub(st, sid);
      if seqNo > 0 && seqNo != st.recs[r].seqNo + 1 {
        ResubscribeKeeps(st, conn, r);
      } else {
        var s := if seqNo > 0 then st.recs[r].(seqNo := seqNo) else st.recs[r];
        RetriesKnown(st, r);
        QuietEditKeeps(st, r, s);
        ProcessKeeps(WithRec(st, r, s), conn, r, frame);
      }
    }
  }

  lemma RetriesKnown(st: State, r: SubRef)
    requires r in st.recs && Settled(st, r)
    ensures st.recs[r].retries >= 0
  {
  }
}
