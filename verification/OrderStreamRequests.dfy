/** Requests, retries and resubscribing keep every subscription carried. */
module OrderStreamRequests {
  import opened Basics
  import opened OrderStreamModel
  import opened OrderStreamInvariant
  import opened OrderStreamHelpers

  // ---------- Requests ----------

  /** The stream with one more goroutine returned. */
  lemma TaskDone(st: State, t: Task)
    requires Inv(st)
    requires t.ReauthTask? || t.RefreshTask?
    ensures Inv(st.(tasks := st.tasks - {t}))
  {
    var st' := st.(tasks := st.tasks - {t});
    forall q | Current(st', q) ensures Settled(st', q) {
      assert Settled(st, q);
      assert forall id :: Awaits(st', id, q) <==> Awaits(st, id, q);
      if st.conn.Some? {
        forall id | Awaits(st', id, q) ensures Awake(st', id, q) { assert Awaits(st, id, q) && Awake(st, id, q); }
        if st'.recs[q].sub == 0 && st'.recs[q].retryTimer.None? {
          var id :| Awaits(st, id, q);
          assert Awaits(st', id, q);
        }
        if Waiting(st', q) { var id :| Awaits(st', id, q); assert Awaits(st, id, q); }
      }
    }
  }

  /** Nothing is under way for `r`. */
  ghost predicate Idle(st: State, r: SubRef)
    requires r in st.recs
  {
    st.recs[r].sub == 0 && st.recs[r].retryTimer.None? && !Waiting(st, r) && AckKnown(st, r)
  }

  lemma SubscribeServerCore(st: State, conn: int, r: SubRef)
    requires Core(st) && Current(st, r) && st.conn == Some(conn)
    ensures Core(SubscribeServer(st, conn, r)) && Elsewhere(st, SubscribeServer(st, conn, r), r)
    ensures Current(SubscribeServer(st, conn, r), r)
  {
    var st' := SubscribeServer(st, conn, r);
    forall q | q != r && q in st.recs ensures Same(st, st', q) {
      forall i ensures Awaits(st, i, q) <==> Awaits(st', i, q) {}
    }
  }

  /** Subscribing gives an idle subscription its one pending request. */
  lemma SubscribeServerCarries(st: State, conn: int, r: SubRef)
    requires Core(st) && Current(st, r) && st.conn == Some(conn)
    requires Idle(st, r) && st.recs[r].consumers != {}
    ensures Carried(SubscribeServer(st, conn, r), r)
  {
    var st' := SubscribeServer(st, conn, r);
    var id := st.requestSeq + 1;
    assert Awaits(st', id, r);
    forall i | i != id ensures !Awaits(st', i, r) { assert !Awaits(st, i, r); }
    assert Awake(st', id, r);
  }

  lemma RetryCore(st: State, conn: int, r: SubRef)
    requires Core(st) && r in st.recs
    ensures Core(RetrySubscribe(st, conn, r)) && Elsewhere(st, RetrySubscribe(st, conn, r), r)
    ensures Current(st, r) <==> Current(RetrySubscribe(st, conn, r), r)
  {
    hide Owned, Queued, Ticketed, Dialled;
    var st' := RetrySubscribe(st, conn, r);
    PatchOwned(st.subs, st.recs, st.consumers, r, st'.recs[r]);
    RouteSame(st.subs, st.recs, st.bySub, st.pending, st.requestSeq, r, st'.recs[r]);
    PatchElsewhere(st, r, st'.recs[r]);
  }

  lemma RetryCarries(st: State, conn: int, r: SubRef)
    requires Core(st) && Current(st, r) && st.conn == Some(conn)
    requires st.recs[r].sub == 0 && !Waiting(st, r) && st.recs[r].consumers != {} && AckKnown(st, r)
    ensures Carried(RetrySubscribe(st, conn, r), r)
  {
    forall i ensures !Awaits(RetrySubscribe(st, conn, r), i, r) { assert !Awaits(st, i, r); }
  }

  // ---------- Resubscribing ----------

  /** Forgetting one server subscription. */
  lemma DropRouted(subs: map<Account, SubRef>, recs: map<SubRef, Sub>, bySub: map<ServerSub, SubRef>,
                   pending: map<RequestId, Request>, requestSeq: int, r: SubRef, s: Sub, requestSeq': int)
    requires Routed(subs, recs, bySub, pending, requestSeq) && r in recs && requestSeq <= requestSeq'
    requires s.sub == 0 && s.account == recs[r].account
    ensures Routed(subs, recs[r := s], bySub - {recs[r].sub}, pending, requestSeq')
  {
    forall q ensures IsCurrent(subs, recs, q) <==> IsCurrent(subs, recs[r := s], q) {}
  }

  lemma DropCore(st: State, r: SubRef)
    requires Core(st) && Current(st, r) && st.conn.Some?
    ensures Core(DropServerSub(st, r)) && Elsewhere(st, DropServerSub(st, r), r)
    ensures Current(DropServerSub(st, r), r)
    ensures forall id :: Awaits(DropServerSub(st, r), id, r) <==> Awaits(st, id, r)
  {
    hide Owned, Queued;
    var st' := DropServerSub(st, r);
    PatchOwned(st.subs, st.recs, st.consumers, r, st'.recs[r]);
    PatchElsewhere(st, r, st'.recs[r]);
    DropRouted(st.subs, st.recs, st.bySub, st.pending, st.requestSeq, r, st'.recs[r], st'.requestSeq);
    if st.recs[r].sub == 0 { assert st.bySub - {0} == st.bySub; }
  }

  /** What `resubscribe` starts from: connected as far as consumers know, nothing pending. */
  ghost predicate Dropping(st: State, r: SubRef)
    requires r in st.recs
  {
    && st.conn.Some?
    && st.recs[r].consumers != {}
    && st.recs[r].retryTimer.None? && !Waiting(st, r) && AckKnown(st, r)
    && st.recs[r].state == SubConnected
    && (!st.recs[r].stale ==> st.recs[r].staleReason == 0 && st.recs[r].staleOrderIds == [])
    && Keyed(st.recs[r])
    && Agrees(st, r)
  }

  lemma RedialCarries(st: State, conn: int, r: SubRef)
    requires Core(st) && Current(st, r) && st.conn == Some(conn) && Dropping(st, r)
    ensures var st' := Redial(DropServerSub(st, r), conn, r);
      && Core(st') && Elsewhere(st, st', r) && Current(st', r) && Carried(st', r)
      && SameBut(st, st', r)
      && st'.recs[r].retries > 0
  {
    hide Owned, Routed, Queued, Ticketed, Dialled, Keyed, Elsewhere;
    var st1 := DropServerSub(st, r);
    DropCore(st, r);
    assert !Waiting(st1, r);
    if st1.recs[r].retries > 0 {
      RetryCore(st1, conn, r);
      RetryCarries(st1, conn, r);
      ElsewhereTrans(st, st1, Redial(DropServerSub(st, r), conn, r), r);
    } else {
      var st2 := WithRec(st1, r, st1.recs[r].(retries := 1));
      PatchCore(st1, r, st2.recs[r]);
      assert forall id :: Awaits(st2, id, r) <==> Awaits(st1, id, r);
      assert !Waiting(st2, r);
      SubscribeServerCore(st2, conn, r);
      SubscribeServerCarries(st2, conn, r);
      ElsewhereTrans(st, st1, st2, r);
      ElsewhereTrans(st, st2, Redial(DropServerSub(st, r), conn, r), r);
    }
  }

  /** What redialling leaves of the record. */
  predicate SameBut(st: State, st': State, r: SubRef)
    requires r in st.recs && r in st'.recs
  {
    var s, s' := st.recs[r], st'.recs[r];
    && s'.consumers == s.consumers && st'.consumers == st.consumers
    && s'.sub == 0 && s'.seqNo == 0 && !s'.ready && !s'.staging && s'.staged == []
    && s'.state == s.state && s'.orders == s.orders && s'.cursor == s.cursor && s'.account == s.account
    && s'.stale == s.stale && s'.staleReason == s.staleReason && s'.staleOrderIds == s.staleOrderIds
  }

  lemma ResubscribeSettles(st: State, conn: int, r: SubRef)
    requires Core(st) && AllSettledBut(st, r) && Current(st, r) && st.conn == Some(conn) && Dropping(st, r)
    ensures Core(Resubscribe(st, conn, r)) && AllSettled(Resubscribe(st, conn, r))
    ensures Elsewhere(st, Resubscribe(st, conn, r), r)
  {
    var st1 := Redial(DropServerSub(st, r), conn, r);
    RedialCarries(st, conn, r);
    SettledElsewhere(st, st1, r);
    RedialAnnounces(st, st1, r);
    AnnounceSettles(st1, r, st1.recs[r].(state := SubDisconnected), Disconnected);
    ElsewhereTrans(st, st1, Resubscribe(st, conn, r), r);
  }

  /** The disconnect is all the consumers miss. */
  lemma RedialAnnounces(st: State, st1: State, r: SubRef)
    requires r in st.recs && r in st1.recs && Dropping(st, r) && SameBut(st, st1, r)
    requires st1.recs[r].retries >= 0 && (st1.recs[r].retryTimer.Some? ==> st1.recs[r].retries > 0)
    ensures Consistent(st1.recs[r].(state := SubDisconnected))
    ensures forall c :: c in st1.recs[r].consumers && c in st1.consumers && !st1.consumers[c].closed ==>
      FoldEvent(Folded(st1.consumers[c].log), Disconnected) == SharedOf(st1.recs[r].(state := SubDisconnected))
  {
  }

  lemma ForgetCore(st: State, r: SubRef)
    requires Core(st) && Current(st, r) && st.conn.Some? && Dropping(st, r)
    ensures var st1 := WithRec(st, r, st.recs[r].(sub := 0)).(bySub := st.bySub - {st.recs[r].sub});
      Core(st1) && Elsewhere(st, st1, r) && Current(st1, r) && Dropping(st1, r)
  {
    hide Owned, Queued, Ticketed, Dialled;
    var s := st.recs[r].(sub := 0);
    var st1 := WithRec(st, r, s).(bySub := st.bySub - {st.recs[r].sub});
    PatchOwned(st.subs, st.recs, st.consumers, r, s);
    PatchElsewhere(st, r, s);
    DropRouted(st.subs, st.recs, st.bySub, st.pending, st.requestSeq, r, s, st.requestSeq);
    assert forall id :: Awaits(st1, id, r) <==> Awaits(st, id, r);
    assert !Waiting(st1, r);
  }

  lemma ServerEndedSettles(st: State, conn: int, r: SubRef)
    requires Core(st) && AllSettledBut(st, r) && Current(st, r) && st.conn == Some(conn) && Dropping(st, r)
    ensures Core(ServerEnded(st, conn, r)) && AllSettled(ServerEnded(st, conn, r))
    ensures Elsewhere(st, ServerEnded(st, conn, r), r)
  {
    var s := st.recs[r].(sub := 0);
    var st1 := WithRec(st, r, s).(bySub := st.bySub - {st.recs[r].sub});
    ForgetCore(st, r);
    SettledElsewhere(st, st1, r);
    ResubscribeSettles(st1, conn, r);
    ElsewhereTrans(st, st1, ServerEnded(st, conn, r), r);
  }
}
