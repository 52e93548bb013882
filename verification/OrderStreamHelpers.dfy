/** Bookkeeping and frame of the helpers every section is built from. */
module OrderStreamHelpers {
  import opened Basics
  import opened OrderStreamModel
  import opened OrderStreamInvariant

  // ---------- Ending a subscription ----------

  lemma EndOwned(subs: map<Account, SubRef>, recs: map<SubRef, Sub>, consumers: map<ConsumerRef, Consumer>,
                 r: SubRef, s: Sub, consumers': map<ConsumerRef, Consumer>)
    requires Owned(subs, recs, consumers) && IsCurrent(subs, recs, r)
    requires s.consumers == {} && s.sub == 0 && s.account == recs[r].account
    requires consumers' == FinishedIn(consumers, recs[r].consumers, None)
    ensures Owned(subs - {s.account}, recs[r := s], consumers')
    ensures !IsCurrent(subs - {s.account}, recs[r := s], r)
    ensures forall q :: q != r ==> (IsCurrent(subs - {s.account}, recs[r := s], q) <==> IsCurrent(subs, recs, q))
  {
  }

  lemma EndRouted(subs: map<Account, SubRef>, recs: map<SubRef, Sub>, bySub: map<ServerSub, SubRef>,
                  pending: map<RequestId, Request>, requestSeq: int, r: SubRef, s: Sub,
                  pending': map<RequestId, Request>, requestSeq': int)
    requires Routed(subs, recs, bySub, pending, requestSeq) && IsCurrent(subs, recs, r)
    requires s.sub == 0 && s.account == recs[r].account && requestSeq <= requestSeq'
    requires pending' == map id | id in pending && pending[id].s != r :: pending[id]
    requires forall q :: q in recs && recs[q].account == s.account && IsCurrent(subs, recs, q) ==> q == r
    ensures Routed(subs - {s.account}, recs[r := s], bySub - {recs[r].sub}, pending', requestSeq')
  {
    var subs', recs' := subs - {s.account}, recs[r := s];
    forall q | q != r && IsCurrent(subs, recs, q) ensures IsCurrent(subs', recs', q) {}
  }

  lemma TeardownOneCore(st: State, r: SubRef)
    requires Core(st) && Current(st, r)
    ensures var st' := TeardownOne(st, r);
      && Owned(st'.subs, st'.recs, st'.consumers)
      && Queued(st'.maxQueue, st'.consumers)
      && Routed(st'.subs, st'.recs, st'.bySub, st'.pending, st'.requestSeq)
      && Ticketed(st'.pending, st'.conn, st'.tasks, st'.sent, st'.requestSeq)
      && (st'.conn.None? ==> st'.pending == map[] && st'.bySub == map[] && st'.unsubscribing == {})
      && !Current(st', r)
      && (forall q :: q != r ==> (Current(st', q) <==> Current(st, q)))
  {
    var st' := TeardownOne(st, r);
    var s := st'.recs[r];
    EndOwned(st.subs, st.recs, st.consumers, r, s, st'.consumers);
    EndRouted(st.subs, st.recs, st.bySub, st.pending, st.requestSeq, r, s, st'.pending, st'.requestSeq);
    if st.recs[r].sub == 0 { assert st.bySub - {0} == st.bySub; }
  }

  lemma TeardownOneSame(st: State, r: SubRef, q: SubRef)
    requires Owned(st.subs, st.recs, st.consumers) && Current(st, r) && q != r && q in st.recs
    ensures Same(st, TeardownOne(st, r), q)
  {
  }

  lemma NoneCurrent(st: State)
    requires st.subs == map[]
    ensures Detach(st).recs == st.recs
  {
  }

  lemma TeardownKeepsCore(st: State, r: SubRef)
    requires Core(st) && Current(st, r)
    ensures Core(Teardown(st, r)) && !Current(Teardown(st, r), r)
  {
    var st1 := TeardownOne(st, r);
    TeardownOneCore(st, r);
    if st1.subs == map[] { NoneCurrent(st1); }
  }

  lemma TeardownElsewhere(st: State, r: SubRef)
    requires Core(st) && Current(st, r)
    ensures Elsewhere(st, Teardown(st, r), r)
  {
    hide Owned, Queued, Routed, Ticketed, Dialled;
    var st1 := TeardownOne(st, r);
    TeardownOneCore(st, r);
    if st1.subs == map[] { NoneCurrent(st1); }
    forall q | q != r && Current(st, q) ensures Same(st, Teardown(st, r), q) {
      TeardownOneSame(st, r, q);
      assert Current(st1, q);
    }
  }

  lemma ElsewhereRefl(st: State, r: SubRef)
    requires Owned(st.subs, st.recs, st.consumers)
    ensures Elsewhere(st, st, r)
  {
  }

  lemma TeardownCore(st: State, r: SubRef)
    requires Core(st) && r in st.recs
    ensures Core(Teardown(st, r))
    ensures Elsewhere(st, Teardown(st, r), r)
    ensures !Current(Teardown(st, r), r)
  {
    if Current(st, r) {
      TeardownKeepsCore(st, r);
      TeardownElsewhere(st, r);
    } else {
      ElsewhereRefl(st, r);
    }
  }

  // ---------- Offering events ----------

  lemma OfferQueued(maxQueue: int, consumers: map<ConsumerRef, Consumer>, part: set<ConsumerRef>, event: StreamEvent)
    requires Queued(maxQueue, consumers)
    ensures Queued(maxQueue, OfferedIn(maxQueue, consumers, part, event))
  {
  }

  lemma OfferOwned(subs: map<Account, SubRef>, recs: map<SubRef, Sub>, consumers: map<ConsumerRef, Consumer>,
      maxQueue: int,
                   r: SubRef, s: Sub, dropped: set<ConsumerRef>, part: set<ConsumerRef>, event: StreamEvent)
    requires Owned(subs, recs, consumers) && r in recs
    requires forall c :: c in part && c in consumers ==> consumers[c].owner == r
    requires forall c :: c in dropped <==> c in part && c in consumers && Overflows(maxQueue, consumers[c])
    requires s == recs[r].(consumers := recs[r].consumers - dropped)
    ensures Owned(subs, recs[r := s], OfferedIn(maxQueue, consumers, part, event))
  {
    var consumers' := OfferedIn(maxQueue, consumers, part, event);
    forall c | c in consumers'
      ensures consumers'[c].owner == consumers[c].owner
      ensures consumers'[c].chClosed <==> consumers[c].chClosed || c in dropped
    {
    }
    forall q | q in recs && !IsCurrent(subs, recs[r := s], q) ensures !IsCurrent(subs, recs, q) {}
  }

  lemma RouteSame(subs: map<Account, SubRef>, recs: map<SubRef, Sub>, bySub: map<ServerSub, SubRef>,
                  pending: map<RequestId, Request>, requestSeq: int, r: SubRef, s: Sub)
    requires Routed(subs, recs, bySub, pending, requestSeq) && r in recs
    requires s.sub == recs[r].sub && s.account == recs[r].account
    ensures Routed(subs, recs[r := s], bySub, pending, requestSeq)
    ensures forall q :: IsCurrent(subs, recs, q) <==> IsCurrent(subs, recs[r := s], q)
  {
  }

  lemma OfferOnlyCore(st: State, r: SubRef, part: set<ConsumerRef>, event: StreamEvent)
    requires Core(st) && r in st.recs
    requires forall c :: c in part && c in st.consumers ==> st.consumers[c].owner == r
    ensures Core(OfferOnly(st, r, part, event))
    ensures Current(st, r) <==> Current(OfferOnly(st, r, part, event), r)
  {
    var st1 := OfferOnly(st, r, part, event);
    OfferQueued(st.maxQueue, st.consumers, part, event);
    OfferOwned(st.subs, st.recs, st.consumers, st.maxQueue, r, st1.recs[r], DroppedBy(st, part), part, event);
    RouteSame(st.subs, st.recs, st.bySub, st.pending, st.requestSeq, r, st1.recs[r]);
  }

  lemma OfferOnlyElsewhere(st: State, r: SubRef, part: set<ConsumerRef>, event: StreamEvent)
    requires Owned(st.subs, st.recs, st.consumers) && r in st.recs
    requires forall c :: c in part && c in st.consumers ==> st.consumers[c].owner == r
    ensures Elsewhere(st, OfferOnly(st, r, part, event), r)
  {
    var st1 := OfferOnly(st, r, part, event);
    forall q | q != r && q in st.recs ensures Same(st, st1, q) {}
  }

  lemma OfferCore(st: State, r: SubRef, part: set<ConsumerRef>, event: StreamEvent)
    requires Core(st) && r in st.recs
    requires forall c :: c in part && c in st.consumers ==> st.consumers[c].owner == r
    ensures Core(Offer(st, r, part, event))
    ensures Elsewhere(st, Offer(st, r, part, event), r)
  {
    var st1 := OfferOnly(st, r, part, event);
    OfferOnlyCore(st, r, part, event);
    OfferOnlyElsewhere(st, r, part, event);
    if Offer(st, r, part, event) != st1 {
      TeardownCore(st1, r);
      ElsewhereTrans(st, st1, Offer(st, r, part, event), r);
    }
  }

  lemma DeliverCore(st: State, r: SubRef, event: StreamEvent)
    requires Core(st) && r in st.recs
    ensures Core(Deliver(st, r, event))
    ensures Elsewhere(st, Deliver(st, r, event), r)
  {
    OfferCore(st, r, st.recs[r].consumers, event);
  }

  /**
   If the subscription survives a delivery, it differs in its consumers only, each still open one having the
   event.
   */
  ghost predicate Survived(st: State, st': State, r: SubRef, event: StreamEvent)
    requires r in st.recs && r in st'.recs
  {
    && st'.recs == st.recs[r := st.recs[r].(consumers := st'.recs[r].consumers)]
    && st'.recs[r].consumers <= st.recs[r].consumers
    && (st.recs[r].consumers != {} ==> st'.recs[r].consumers != {})
    && (forall c :: c in st'.recs[r].consumers && c in st'.consumers && !st'.consumers[c].closed ==>
          c in st.consumers && !st.consumers[c].closed && st'.consumers[c].log == st.consumers[c].log + [event])
    && st' == st.(recs := st'.recs, consumers := st'.consumers)
  }

  lemma DeliverSurvives(st: State, st': State, r: SubRef, event: StreamEvent)
    requires Core(st) && r in st.recs
    requires st' == Deliver(st, r, event) && Current(st', r)
    ensures Survived(st, st', r, event)
  {
    var st1 := OfferOnly(st, r, st.recs[r].consumers, event);
    if st' != st1 {
      OfferOnlyCore(st, r, st.recs[r].consumers, event);
      TeardownCore(st1, r);
    }
  }

  lemma SurvivorCarried(st: State, st': State, r: SubRef, event: StreamEvent)
    requires r in st.recs && r in st'.recs && Survived(st, st', r, event)
    requires Carried(st, r)
    ensures Carried(st', r)
  {
    assert forall id :: Awaits(st, id, r) <==> Awaits(st', id, r);
    if st.conn.Some? {
      WaitingSame(st, st', r);
      assert Served(st', r);
    }
  }

  lemma SurvivorAgrees(st: State, st': State, r: SubRef, event: StreamEvent)
    requires r in st.recs && r in st'.recs && Survived(st, st', r, event)
    requires AgreesAfter(st, r, event)
    ensures Agrees(st', r)
  {
    forall c | c in st'.recs[r].consumers && c in st'.consumers && !st'.consumers[c].closed
      ensures Folded(st'.consumers[c].log) == SharedOf(st'.recs[r])
    {
      FoldedAppend(st.consumers[c].log, event);
    }
  }

  /** A delivery that completes what the consumers are to know leaves every subscription settled. */
  lemma DeliverSettles(st: State, r: SubRef, event: StreamEvent)
    requires Core(st) && r in st.recs && AllSettledBut(st, r)
    requires Current(st, r) ==> Steady(st, r) && AgreesAfter(st, r, event)
    ensures Core(Deliver(st, r, event)) && Elsewhere(st, Deliver(st, r, event), r)
    ensures AllSettled(Deliver(st, r, event))
  {
    var st' := Deliver(st, r, event);
    DeliverCore(st, r, event);
    SettledElsewhere(st, st', r);
    if Current(st', r) {
      DeliverSurvives(st, st', r, event);
      SurvivorCarried(st, st', r, event);
      SurvivorAgrees(st, st', r, event);
    }
  }

  lemma LinkedElsewhere(st: State, st': State, r: SubRef)
    requires Linked(st) && Elsewhere(st, st', r)
    ensures Linked(st')
  {
  }

  // ---------- Editing one record ----------

  /** Changing a record's own bookkeeping, not its place in the maps. */
  lemma PatchCore(st: State, r: SubRef, s: Sub)
    requires Core(st) && r in st.recs
    requires s.account == st.recs[r].account && s.consumers == st.recs[r].consumers && s.sub == st.recs[r].sub
    ensures Core(WithRec(st, r, s))
    ensures Elsewhere(st, WithRec(st, r, s), r)
    ensures Current(st, r) <==> Current(WithRec(st, r, s), r)
  {
    PatchOwned(st.subs, st.recs, st.consumers, r, s);
    RouteSame(st.subs, st.recs, st.bySub, st.pending, st.requestSeq, r, s);
    PatchElsewhere(st, r, s);
  }

  lemma PatchOwned(subs: map<Account, SubRef>, recs: map<SubRef, Sub>, consumers: map<ConsumerRef, Consumer>,
      r: SubRef, s: Sub)
    requires Owned(subs, recs, consumers) && r in recs
    requires s.account == recs[r].account && s.consumers == recs[r].consumers
      && (IsCurrent(subs, recs, r) || s.sub == 0)
    ensures Owned(subs, recs[r := s], consumers)
  {
    forall q | q in recs && !IsCurrent(subs, recs[r := s], q) ensures !IsCurrent(subs, recs, q) {}
  }

  lemma PatchElsewhere(st: State, r: SubRef, s: Sub)
    requires Owned(st.subs, st.recs, st.consumers) && r in st.recs && s.account == st.recs[r].account
    ensures Elsewhere(st, WithRec(st, r, s), r)
  {
    forall q | q != r && q in st.recs ensures Same(st, WithRec(st, r, s), q) {}
  }

  /** Changing what neither requests nor timers depend on. */
  lemma PatchCarried(st: State, r: SubRef, s: Sub)
    requires r in st.recs && Carried(st, r)
    requires s.account == st.recs[r].account && s.consumers == st.recs[r].consumers && s.sub == st.recs[r].sub
    requires s.retryTimer == st.recs[r].retryTimer && s.ackTimer == st.recs[r].ackTimer
    requires s.cursor == st.recs[r].cursor || (s.sub != 0 && st.conn.Some?)
    ensures Carried(WithRec(st, r, s), r)
  {
    var st' := WithRec(st, r, s);
    assert forall id :: Awaits(st, id, r) <==> Awaits(st', id, r);
    if st.conn.Some? {
      WaitingSame(st, st', r);
    }
  }

  /** A record edit that is announced by `event` to consumers that knew the record before. */
  lemma AnnounceSettles(st: State, r: SubRef, s: Sub, event: StreamEvent)
    requires Core(st) && AllSettledBut(st, r) && r in st.recs
    requires s.account == st.recs[r].account && s.consumers == st.recs[r].consumers && s.sub == st.recs[r].sub
    requires s.retryTimer == st.recs[r].retryTimer && s.ackTimer == st.recs[r].ackTimer
    requires s.cursor == st.recs[r].cursor || (s.sub != 0 && st.conn.Some?)
    requires Current(st, r) ==> Carried(st, r) && Consistent(s)
    requires forall c :: c in s.consumers && c in st.consumers && !st.consumers[c].closed ==>
      FoldEvent(Folded(st.consumers[c].log), event) == SharedOf(s)
    ensures var st' := Deliver(WithRec(st, r, s), r, event);
      Core(st') && AllSettled(st') && Elsewhere(st, st', r)
  {
    var st1 := WithRec(st, r, s);
    PatchCore(st, r, s);
    SettledElsewhere(st, st1, r);
    if Current(st, r) { PatchCarried(st, r, s); }
    DeliverSettles(st1, r, event);
    ElsewhereTrans(st, st1, Deliver(st1, r, event), r);
  }

  // ---------- Terminating ----------

  lemma FinishOwned(subs: map<Account, SubRef>, recs: map<SubRef, Sub>, consumers: map<ConsumerRef, Consumer>,
                    r: SubRef, cs: set<ConsumerRef>, err: Option<Failure>)
    requires Owned(subs, recs, consumers) && r in recs && cs <= recs[r].consumers
    ensures Owned(subs, recs[r := recs[r].(consumers := recs[r].consumers - cs)], FinishedIn(consumers, cs, err))
  {
    var recs' := recs[r := recs[r].(consumers := recs[r].consumers - cs)];
    forall q | q in recs && !IsCurrent(subs, recs', q) ensures !IsCurrent(subs, recs, q) {}
  }

  lemma FinishCore(st: State, r: SubRef, err: Option<Failure>)
    requires Core(st) && r in st.recs
    ensures Core(FinishConsumers(st, r, err))
    ensures Elsewhere(st, FinishConsumers(st, r, err), r)
  {
    var st1 := FinishConsumers(st, r, err);
    FinishOwned(st.subs, st.recs, st.consumers, r, st.recs[r].consumers, err);
    assert st.recs[r].consumers - st.recs[r].consumers == {};
    RouteSame(st.subs, st.recs, st.bySub, st.pending, st.requestSeq, r, st1.recs[r]);
    FinishElsewhere(st, r, err);
  }

  lemma FinishElsewhere(st: State, r: SubRef, err: Option<Failure>)
    requires Owned(st.subs, st.recs, st.consumers) && r in st.recs
    ensures Elsewhere(st, FinishConsumers(st, r, err), r)
  {
    forall q | q != r && q in st.recs ensures Same(st, FinishConsumers(st, r, err), q) {}
  }

  lemma TerminateCore(st: State, r: SubRef, failure: Failure)
    requires Core(st) && r in st.recs
    ensures Core(Terminate(st, r, failure)) && Elsewhere(st, Terminate(st, r, failure), r)
    ensures !Current(Terminate(st, r, failure), r)
  {
    if Current(st, r) {
      var st1 := Report(st, r, failure);
      DeliverCore(st, r, StreamError(failure));
      var st1' := WithState(st1, r, SubDisconnected);
      PatchCore(st1, r, st1'.recs[r]);
      ElsewhereTrans(st, st1, st1', r);
      var st2 := Farewell(st, r, failure);
      DeliverCore(st1', r, Disconnected);
      ElsewhereTrans(st, st1', Deliver(st1', r, Disconnected), r);
      var st3 := FinishConsumers(st2, r, Some(failure));
      FinishCore(st2, r, Some(failure));
      ElsewhereTrans(st, st2, st3, r);
      TeardownCore(st3, r);
      ElsewhereTrans(st, st3, Teardown(st3, r), r);
    } else {
      ElsewhereRefl(st, r);
    }
  }

  lemma TerminateSettles(st: State, r: SubRef, failure: Failure)
    requires Core(st) && r in st.recs && AllSettledBut(st, r)
    ensures Core(Terminate(st, r, failure)) && AllSettled(Terminate(st, r, failure))
    ensures Elsewhere(st, Terminate(st, r, failure), r) && !Current(Terminate(st, r, failure), r)
  {
    TerminateCore(st, r, failure);
    SettledElsewhere(st, Terminate(st, r, failure), r);
  }

  // ---------- Loops over the subscriptions ----------

  lemma ReportSettles(st: State, r: SubRef, failure: Failure)
    requires Core(st) && r in st.recs && AllSettled(st)
    ensures Core(Report(st, r, failure)) && AllSettled(Report(st, r, failure))
    ensures Elsewhere(st, Report(st, r, failure), r)
  {
    DeliverSettles(st, r, StreamError(failure));
  }

  lemma {:induction false} ReportAllSettles(st: State, failure: Failure, order: seq<SubRef>)
    requires Core(st) && AllSettled(st)
    requires forall i :: 0 <= i < |order| ==> order[i] in st.recs
    ensures Core(ReportAll(st, failure, order)) && AllSettled(ReportAll(st, failure, order))
    ensures SameLink(st, ReportAll(st, failure, order))
    decreases |order|
  {
    if order != [] {
      ReportAllSettles(st, failure, Init(order));
      ReportSettles(ReportAll(st, failure, Init(order)), Last(order), failure);
    }
  }

  /** The connection is the same, unless the run ended. */
  predicate SameLink(st: State, st': State) {
    st'.sess.Some? ==>
      st'.sess == st.sess && st'.conn == st.conn && st'.connecting == st.connecting
        && st'.reconnectTimer == st.reconnectTimer
  }

  /** Ending every subscription ends the run, whatever their state was. */
  lemma {:induction false} TerminateAllCore(st: State, failure: Failure, order: seq<SubRef>)
    requires Core(st)
    requires forall i :: 0 <= i < |order| ==> order[i] in st.recs
    ensures Core(TerminateAll(st, failure, order))
    ensures forall i :: 0 <= i < |order| ==> !Current(TerminateAll(st, failure, order), order[i])
    ensures forall q :: Current(TerminateAll(st, failure, order), q) ==> Current(st, q)
    decreases |order|
  {
    if order != [] {
      var st1 := TerminateAll(st, failure, Init(order));
      TerminateAllCore(st, failure, Init(order));
      TerminateCore(st1, Last(order), failure);
      forall i | 0 <= i < |order| ensures !Current(TerminateAll(st, failure, order), order[i]) {
        if i < |order| - 1 { assert order[i] == Init(order)[i]; }
      }
    }
  }

  lemma TerminateAllEnds(st: State, failure: Failure, order: seq<SubRef>)
    requires Core(st) && Enumerates(order, st.subs.Values)
    requires forall i :: 0 <= i < |order| ==> order[i] in st.recs
    ensures Inv(TerminateAll(st, failure, order)) && TerminateAll(st, failure, order).sess.None?
  {
    var st' := TerminateAll(st, failure, order);
    TerminateAllCore(st, failure, order);
    forall q | Current(st, q) ensures !Current(st', q) {
      assert q in st.subs.Values;
      var i :| 0 <= i < |order| && order[i] == q;
    }
    if st'.subs != map[] {
      var a :| a in st'.subs;
      assert Current(st', st'.subs[a]);
    }
  }
}
