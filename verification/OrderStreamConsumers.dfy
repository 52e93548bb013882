/** Consumers that join, read, close and leave. */
module OrderStreamConsumers {
  import opened Basics
  import opened OrderStreamModel
  import opened OrderStreamInvariant
  import opened OrderStreamHelpers

  lemma CloseKeeps(st: State, c: ConsumerRef)
    requires Inv(st)
    ensures Inv(CloseCall(st, c))
  {
    var st' := CloseCall(st, c);
    forall q | Current(st', q) ensures Settled(st', q) {
      assert Settled(st, q);
      ConsumersOnly(st, st', q);
    }
  }

  lemma ReadKeeps(st: State, c: ConsumerRef)
    requires Inv(st)
    ensures Inv(ReadOne(st, c))
  {
    hide Routed, Ticketed, Dialled, Carried, Consistent;
    var st' := ReadOne(st, c);
    forall q | Current(st', q) ensures Settled(st', q) {
      assert Settled(st, q);
      ConsumersOnly(st, st', q);
    }
  }

  lemma ConsumersOnly(st: State, st': State, q: SubRef)
    requires q in st.recs && Carried(st, q) && st' == st.(consumers := st'.consumers)
    ensures Carried(st', q)
  {
    assert forall id :: Awaits(st, id, q) <==> Awaits(st', id, q);
    if st.conn.Some? {
      WaitingSame(st, st', q);
    }
  }

  /** `Remove` before the test whether the subscription lost its last consumer. */
  function Removed(st: State, r: SubRef, c: ConsumerRef): State
    requires r in st.recs
  {
    st.(recs := st.recs[r := st.recs[r].(consumers := st.recs[r].consumers - {c})],
        consumers := FinishedIn(st.consumers, {c}, None))
  }

  lemma RemovedCore(st: State, r: SubRef, c: ConsumerRef)
    requires Core(st) && r in st.recs && c in st.recs[r].consumers
    ensures Core(Removed(st, r, c))
  {
    FinishOwned(st.subs, st.recs, st.consumers, r, {c}, None);
    RouteSame(st.subs, st.recs, st.bySub, st.pending, st.requestSeq, r, Removed(st, r, c).recs[r]);
  }

  lemma RemovedElsewhere(st: State, r: SubRef, c: ConsumerRef)
    requires Owned(st.subs, st.recs, st.consumers) && r in st.recs && c in st.recs[r].consumers
    ensures Elsewhere(st, Removed(st, r, c), r)
  {
    forall q | q != r && q in st.recs ensures Same(st, Removed(st, r, c), q) {}
  }

  lemma RemoveKeeps(st: State, r: SubRef, c: ConsumerRef)
    requires Inv(st) && r in st.recs
    ensures Inv(Remove(st, r, c))
  {
    if c in st.recs[r].consumers {
      var st1 := Removed(st, r, c);
      RemovedCore(st, r, c);
      RemovedElsewhere(st, r, c);
      SettledElsewhere(st, st1, r);
      if st1.recs[r].consumers == {} {
        TeardownCore(st1, r);
        SettledElsewhere(st1, Teardown(st1, r), r);
        LinkedElsewhere(st1, Teardown(st1, r), r);
      } else {
        RemovedCarried(st, st1, r, c);
      }
    }
  }

  lemma RemovedCarried(st: State, st': State, r: SubRef, c: ConsumerRef)
    requires r in st.recs && Settled(st, r)
    requires st' == Removed(st, r, c)
    requires st'.recs[r].consumers != {}
    ensures Settled(st', r)
  {
    assert forall id :: Awaits(st, id, r) <==> Awaits(st', id, r);
    if st.conn.Some? {
      WaitingSame(st, st', r);
    }
  }

  // ---------- Joining ----------

  lemma JoinOwned(subs: map<Account, SubRef>, recs: map<SubRef, Sub>, consumers: map<ConsumerRef, Consumer>,
                  account: Account, q: SubRef, s: Sub, c: ConsumerRef)
    requires Owned(subs, recs, consumers) && c !in consumers
    requires if account in subs then q == subs[account] && s == recs[q].(consumers := recs[q].consumers + {c})
             else q !in recs && s == NewRec.(account := account, consumers := {c})
    ensures Owned(subs[account := q], recs[q := s], consumers[c := NewConsumer(q)])
  {
    var subs', recs' := subs[account := q], recs[q := s];
    forall x | x in recs && !IsCurrent(subs', recs', x) ensures !IsCurrent(subs, recs, x) {}
  }

  lemma JoinRouted(subs: map<Account, SubRef>, recs: map<SubRef, Sub>, bySub: map<ServerSub, SubRef>,
                   pending: map<RequestId, Request>, requestSeq: int, account: Account, q: SubRef, s: Sub)
    requires Routed(subs, recs, bySub, pending, requestSeq)
    requires if account in subs then q == subs[account] && q in recs && recs[q].account == account
      && s.account == account && s.sub == recs[q].sub
             else q !in recs && s.account == account && s.sub == 0
    ensures Routed(subs[account := q], recs[q := s], bySub, pending, requestSeq)
  {
    forall x | IsCurrent(subs, recs, x) ensures IsCurrent(subs[account := q], recs[q := s], x) {}
  }

  lemma JoinCore(st: State, account: Account, c: ConsumerRef, r: SubRef)
    requires Core(st) && c !in st.consumers && r !in st.recs
    ensures Core(Join(st, account, c, r))
  {
    var st' := Join(st, account, c, r);
    var q := JoinedAs(st, account, r);
    if account !in st.subs { assert NewRec.consumers + {c} == {c}; }
    JoinOwned(st.subs, st.recs, st.consumers, account, q, st'.recs[q], c);
    JoinRouted(st.subs, st.recs, st.bySub, st.pending, st.requestSeq, account, q, st'.recs[q]);
    assert account in st'.subs;
  }

  lemma JoinOthers(st: State, account: Account, c: ConsumerRef, r: SubRef)
    requires Inv(st) && c !in st.consumers && r !in st.recs
    ensures AllSettledBut(Join(st, account, c, r), JoinedAs(st, account, r))
  {
    hide Routed, Ticketed, Queued, Dialled;
    var st' := Join(st, account, c, r);
    forall x | Current(st', x) && x != JoinedAs(st, account, r) ensures Settled(st', x) {
      assert Current(st, x) && Settled(st, x);
      assert forall id :: Awaits(st, id, x) <==> Awaits(st', id, x);
      WaitingSame(st, st', x);
    }
  }

  lemma {:induction false} UpsertKeys(m: OrderMap, orders: seq<Order>, o: Order)
    ensures Upsert(m, orders + [o]) == Upsert(m, orders)[o.id := o]
  {
    assert Init(orders + [o]) == orders;
  }

  /** Replacing the view by the sorted snapshot gives back exactly the view. */
  lemma {:induction false} SortedOrdersFold(m: OrderMap)
    requires forall k :: k in m ==> m[k].id == k
    ensures Upsert(map[], SortedOrders(m)) == m
    decreases |m|
  {
    if m != map[] {
      MaxKeyExists(m.Keys);
      var k := MaxKey(m.Keys);
      SortedOrdersFold(m - {k});
      UpsertKeys(map[], SortedOrders(m - {k}), m[k]);
      assert (m - {k})[k := m[k]] == m;
    }
  }

  lemma FoldedMaybe(log: seq<StreamEvent>, given: bool, event: StreamEvent)
    ensures Folded(log + Maybe(given, event)) == if given then FoldEvent(Folded(log), event) else Folded(log)
  {
    if given { FoldedAppend(log, event); } else { assert log + [] == log; }
  }

  /** A late joiner that reads what it is told knows what the others know. */
  lemma FoldCatchUp(s: Sub)
    requires Keyed(s) && (!s.stale ==> s.staleReason == 0 && s.staleOrderIds == [])
    ensures Folded(CatchUpEvents(s)) == SharedOf(s)
  {
    var orders := if s.orders.Some? then SortedOrders(s.orders.value) else [];
    if s.orders.Some? { SortedOrdersFold(s.orders.value); }
    var log1 := Maybe(s.state == SubConnected, Connected);
    var log2 := log1 + Maybe(s.orders.Some?, Snapshot(orders));
    var log3 := log2 + Maybe(s.ready, Ready);
    assert [] + log1 == log1;
    FoldedMaybe([], s.state == SubConnected, Connected);
    FoldedMaybe(log1, s.orders.Some?, Snapshot(orders));
    FoldedMaybe(log2, s.ready, Ready);
    FoldedMaybe(log3, s.stale, Stale(true, s.staleReason, s.staleOrderIds));
  }

  /** `st'` is `st` with consumer `c` of `r` changed to `k` and perhaps no longer listed. */
  ghost predicate OneOffered(st: State, st': State, r: SubRef, c: ConsumerRef, k: Consumer)
    requires r in st.recs && r in st'.recs
  {
    && st'.recs == st.recs[r := st.recs[r].(consumers := st'.recs[r].consumers)]
    && st.recs[r].consumers - {c} <= st'.recs[r].consumers <= st.recs[r].consumers
    && st' == st.(recs := st'.recs, consumers := st.consumers[c := k])
  }

  /** Offering to one of several consumers tears nothing down. */
  lemma OfferToOne(st: State, r: SubRef, c: ConsumerRef, other: ConsumerRef, event: StreamEvent)
    requires r in st.recs && c in st.consumers
    requires other in st.recs[r].consumers && other != c
    ensures OneOffered(st, Offer(st, r, {c}, event), r, c, Offered(st.maxQueue, st.consumers[c], event))
  {
    var st' := OfferOnly(st, r, {c}, event);
    assert other in st'.recs[r].consumers;
    assert DroppedBy(st, {c}) == if Overflows(st.maxQueue, st.consumers[c]) then {c} else {};
    assert OfferedIn(st.maxQueue, st.consumers, {c}, event) ==
      st.consumers[c := Offered(st.maxQueue, st.consumers[c], event)];
  }

  lemma OneOfferedTrans(a: State, b: State, b': State, r: SubRef, c: ConsumerRef, k: Consumer, k': Consumer)
    requires r in a.recs && r in b.recs && r in b'.recs
    requires OneOffered(a, b, r, c, k) && OneOffered(b, b', r, c, k')
    ensures OneOffered(a, b', r, c, k')
  {
    assert b'.recs == a.recs[r := a.recs[r].(consumers := b'.recs[r].consumers)];
    assert b'.consumers == a.consumers[c := k'];
  }

  /** What consumer `c` is after the events have been offered to it one by one. */
  function OfferedEach(maxQueue: int, k: Consumer, events: seq<StreamEvent>): (k': Consumer)
    ensures k'.owner == k.owner
    ensures !k'.closed ==> k'.log == k.log + events
    decreases |events|
  {
    if events == [] then k else Offered(maxQueue, OfferedEach(maxQueue, k, Init(events)), Last(events))
  }

  lemma {:induction false} OfferEachOne(st: State, r: SubRef, c: ConsumerRef, other: ConsumerRef,
      events: seq<StreamEvent>)
    requires r in st.recs && c in st.consumers
    requires other in st.recs[r].consumers && other != c
    ensures OneOffered(st, OfferEach(st, r, c, events), r, c, OfferedEach(st.maxQueue, st.consumers[c], events))
    decreases |events|
  {
    if events == [] {
      assert st.recs[r := st.recs[r]] == st.recs && st.consumers[c := st.consumers[c]] == st.consumers;
    } else {
      var st1 := OfferEach(st, r, c, Init(events));
      OfferEachOne(st, r, c, other, Init(events));
      OfferToOne(st1, r, c, other, Last(events));
      OneOfferedTrans(st, st1, OfferEach(st, r, c, events), r, c,
                      OfferedEach(st.maxQueue, st.consumers[c], Init(events)),
                        OfferedEach(st.maxQueue, st.consumers[c], events));
    }
  }

  lemma {:induction false} OfferEachCore(st: State, r: SubRef, c: ConsumerRef, other: ConsumerRef,
      events: seq<StreamEvent>)
    requires Core(st) && r in st.recs && c in st.consumers && st.consumers[c].owner == r
    requires other in st.recs[r].consumers && other != c
    ensures Core(OfferEach(st, r, c, events)) && Elsewhere(st, OfferEach(st, r, c, events), r)
    decreases |events|
  {
    if events == [] {
      ElsewhereRefl(st, r);
    } else {
      var st1 := OfferEach(st, r, c, Init(events));
      OfferEachCore(st, r, c, other, Init(events));
      OfferEachOne(st, r, c, other, Init(events));
      OfferCore(st1, r, {c}, Last(events));
      ElsewhereTrans(st, st1, OfferEach(st, r, c, events), r);
    }
  }

  lemma OneOfferedSettles(st: State, st': State, r: SubRef, c: ConsumerRef, other: ConsumerRef, k: Consumer)
    requires r in st.recs && r in st'.recs && OneOffered(st, st', r, c, k)
    requires other in st.recs[r].consumers && other != c
    requires Steady(st, r)
    requires forall x :: x in st.recs[r].consumers && x != c && x in st.consumers && !st.consumers[x].closed ==>
      Folded(st.consumers[x].log) == SharedOf(st.recs[r])
    requires !k.closed ==> Folded(k.log) == SharedOf(st.recs[r])
    ensures Settled(st', r)
  {
    assert other in st'.recs[r].consumers;
    assert forall id :: Awaits(st, id, r) <==> Awaits(st', id, r);
    WaitingSame(st, st', r);
  }

  lemma CatchUpSettles(st: State, r: SubRef, c: ConsumerRef, other: ConsumerRef)
    requires Core(st) && Current(st, r) && AllSettledBut(st, r)
    requires c in st.consumers && st.consumers[c] == NewConsumer(r) && other in st.recs[r].consumers && other != c
    requires Steady(st, r)
    requires forall x :: x in st.recs[r].consumers && x != c && x in st.consumers && !st.consumers[x].closed ==>
      Folded(st.consumers[x].log) == SharedOf(st.recs[r])
    ensures Core(CatchUp(st, r, c)) && AllSettled(CatchUp(st, r, c)) && Elsewhere(st, CatchUp(st, r, c), r)
  {
    FoldCatchUp(st.recs[r]);
    CatchUpWith(st, r, c, other, CatchUpEvents(st.recs[r]));
  }

  lemma CatchUpWith(st: State, r: SubRef, c: ConsumerRef, other: ConsumerRef, events: seq<StreamEvent>)
    requires Core(st) && Current(st, r) && AllSettledBut(st, r)
    requires c in st.consumers && st.consumers[c] == NewConsumer(r) && other in st.recs[r].consumers && other != c
    requires Steady(st, r) && Folded(events) == SharedOf(st.recs[r])
    requires forall x :: x in st.recs[r].consumers && x != c && x in st.consumers && !st.consumers[x].closed ==>
      Folded(st.consumers[x].log) == SharedOf(st.recs[r])
    ensures var st' := OfferEach(st, r, c, events);
      Core(st') && AllSettled(st') && Elsewhere(st, st', r)
  {
    hide Core, FoldEvent, Folded, Steady, Elsewhere;
    var st' := OfferEach(st, r, c, events);
    var k := OfferedEach(st.maxQueue, st.consumers[c], events);
    assert [] + events == events;
    OfferEachCore(st, r, c, other, events);
    OfferEachOne(st, r, c, other, events);
    SettledElsewhere(st, st', r);
    OneOfferedSettles(st, st', r, c, other, k);
  }
}
