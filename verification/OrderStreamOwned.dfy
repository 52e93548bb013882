/**
 What the methods of the order stream object rely on in the middle of a
 section: ownership alone (`Owned`), which every helper keeps even while the
 rest of the invariant is being rebuilt, and the equalities that let loops and
 field updates be read as the functions of `OrderStreamModel`.
 */
module OrderStreamOwned {
  import opened Basics
  import M = OrderStreamModel
  import opened OrderStreamModel
  import opened OrderStreamInvariant
  import opened OrderStreamHelpers
  import opened OrderStreamConsumers

  ghost predicate Sound(st: State) {
    Owned(st.subs, st.recs, st.consumers) && Latched(st.consumers)
  }

  /** A closed channel is never sent to: its consumer is closed. */
  ghost predicate Latched(consumers: map<ConsumerRef, Consumer>) {
    forall c :: c in consumers && consumers[c].chClosed ==> consumers[c].closed
  }

  lemma OfferedLatched(maxQueue: int, consumers: map<ConsumerRef, Consumer>, part: set<ConsumerRef>, event: StreamEvent)
    requires Latched(consumers)
    ensures Latched(OfferedIn(maxQueue, consumers, part, event))
  {
  }

  lemma FinishedLatched(consumers: map<ConsumerRef, Consumer>, cs: set<ConsumerRef>, err: Option<Failure>)
    requires Latched(consumers)
    ensures Latched(FinishedIn(consumers, cs, err))
  {
  }

  lemma InvSound(st: State)
    requires Inv(st)
    ensures Sound(st) && Rooted(st)
    ensures forall id :: id in st.pending ==> Current(st, st.pending[id].s)
  {
  }

  lemma SoundRoster(st: State, r: SubRef)
    requires Sound(st) && r in st.recs
    ensures Rostered(st.subs, st.recs)
    ensures forall c :: c in st.recs[r].consumers ==> c in st.consumers && !st.consumers[c].chClosed
  {
  }

  /** A subscribe whose token arrived: written, its confirmation timer armed. */
  function Tokened(st: State, conn: int, r: SubRef, id: RequestId): State
    requires r in st.recs
  {
    var timer := if st.sess.None? then None else Some(Timer(st.timerSeq, conn, id));
    st.(recs := st.recs[r := st.recs[r].(ackTimer := timer)], timerSeq := st.timerSeq + 1,
        sent := st.sent[id := M.Subscribe(st.recs[r].account, st.recs[r].cursor)])
  }

  lemma TokenReturnedInOrder(st: State, conn: int, r: SubRef, id: RequestId, result: TokenResult)
    requires r in st.recs
    ensures var st0 := st.(tasks := st.tasks - {SubscribeTask(conn, r, id)});
      SubscribeTokenReturned(st, conn, r, id, result) ==
      if id !in st.pending || st.pending[id].s != r then st0
      else match result
        case Refused => Terminate(st0.(pending := st.pending - {id}), r, TokenRefused)
        case Failed => RetrySubscribe(Report(st0.(pending := st.pending - {id}), r, Transient), conn, r)
        case Token => if st.conn != Some(conn) then st0 else Tokened(st0, conn, r, id)
  {
    hide Terminate, Report, RetrySubscribe;
  }

  // ---------- Map updates ----------

  lemma Unpatched(recs: map<SubRef, Sub>, r: SubRef, s: Sub)
    requires r in recs && recs[r] == s
    ensures recs[r := s] == recs
  {
  }

  lemma Patched(recs: map<SubRef, Sub>, r: SubRef, s: Sub, s': Sub)
    ensures recs[r := s][r := s'] == recs[r := s']
  {
  }

  // ---------- Ownership through the helpers ----------

  ghost predicate Rostered(subs: map<Account, SubRef>, recs: map<SubRef, Sub>) {
    forall a :: a in subs ==> subs[a] in recs && recs[subs[a]].account == a
  }

  lemma SubsLeft(subs: map<Account, SubRef>, recs: map<SubRef, Sub>, r: SubRef, s: Sub)
    requires Rostered(subs, recs)
    requires r in recs && s.account == recs[r].account
    ensures Rostered(subs - {s.account}, recs[r := s])
  {
  }

  lemma DetachOwned(st: State)
    requires Sound(st)
    ensures Sound(Detach(st))
  {
    forall q | q in st.recs ensures Current(st, q) <==> Current(Detach(st), q) {}
  }

  lemma TeardownOwned(st: State, r: SubRef)
    requires Sound(st) && r in st.recs
    ensures Sound(Teardown(st, r))
  {
    if Current(st, r) {
      var st1 := TeardownOne(st, r);
      EndOwned(st.subs, st.recs, st.consumers, r, st1.recs[r], st1.consumers);
      FinishedLatched(st.consumers, st.recs[r].consumers, None);
      DetachOwned(st1);
    }
  }

  lemma OfferOnlyOwned(st: State, r: SubRef, part: set<ConsumerRef>, event: StreamEvent)
    requires Sound(st) && r in st.recs
    requires forall c :: c in part && c in st.consumers ==> st.consumers[c].owner == r
    ensures Sound(OfferOnly(st, r, part, event))
  {
    OfferedLatched(st.maxQueue, st.consumers, part, event);
    OfferOwned(st.subs, st.recs, st.consumers, st.maxQueue, r, OfferOnly(st, r, part, event).recs[r],
      DroppedBy(st, part), part, event);
  }

  lemma OfferStaysOwned(st: State, r: SubRef, part: set<ConsumerRef>, event: StreamEvent)
    requires Sound(st) && r in st.recs
    requires forall c :: c in part && c in st.consumers ==> st.consumers[c].owner == r
    ensures Sound(Offer(st, r, part, event))
  {
    OfferOnlyOwned(st, r, part, event);
    TeardownOwned(OfferOnly(st, r, part, event), r);
  }

  // ---------- The loop of `deliver` ----------

  lemma OfferedToNone(maxQueue: int, consumers: map<ConsumerRef, Consumer>, event: StreamEvent)
    ensures OfferedIn(maxQueue, consumers, {}, event) == consumers
  {
  }

  lemma OfferNone(st: State, r: SubRef, event: StreamEvent)
    requires r in st.recs
    ensures Offer(st, r, {}, event) == st
  {
    assert DroppedBy(st, {}) == {};
    assert st.recs[r].consumers - {} == st.recs[r].consumers;
    Unpatched(st.recs, r, st.recs[r].(consumers := st.recs[r].consumers - {}));
    OfferedToNone(st.maxQueue, st.consumers, event);
  }

  lemma OfferedMore(maxQueue: int, consumers: map<ConsumerRef, Consumer>, done: set<ConsumerRef>, c: ConsumerRef,
      event: StreamEvent)
    requires c !in done
    ensures OfferedIn(maxQueue, OfferedIn(maxQueue, consumers, done, event), {c}, event) ==
      OfferedIn(maxQueue, consumers, done + {c}, event)
  {
  }

  /** Offering to `done` and then to one more consumer. */
  lemma OfferOnlyMore(st: State, r: SubRef, done: set<ConsumerRef>, c: ConsumerRef, event: StreamEvent)
    requires r in st.recs && c !in done
    ensures var a := OfferOnly(st, r, done, event);
      && DroppedBy(st, done + {c}) == DroppedBy(st, done) + DroppedBy(a, {c})
      && OfferOnly(a, r, {c}, event) == OfferOnly(st, r, done + {c}, event)
  {
    var a := OfferOnly(st, r, done, event);
    assert DroppedBy(st, done + {c}) == DroppedBy(st, done) + DroppedBy(a, {c});
    assert st.recs[r].consumers - DroppedBy(st, done) - DroppedBy(a, {c}) ==
      st.recs[r].consumers - DroppedBy(st, done + {c});
    Patched(st.recs, r, a.recs[r], a.recs[r].(consumers := a.recs[r].consumers - DroppedBy(a, {c})));
    OfferedMore(st.maxQueue, st.consumers, done, c, event);
  }

  lemma OfferMore(st: State, r: SubRef, done: set<ConsumerRef>, c: ConsumerRef, event: StreamEvent)
    requires r in st.recs && done <= st.recs[r].consumers && c in st.recs[r].consumers && c !in done
    ensures Offer(st, r, done, event) == OfferOnly(st, r, done, event)
    ensures Offer(OfferOnly(st, r, done, event), r, {c}, event) == Offer(st, r, done + {c}, event)
  {
    var a, b := OfferOnly(st, r, done, event), OfferOnly(st, r, done + {c}, event);
    assert c in a.recs[r].consumers;
    OfferOnlyMore(st, r, done, c, event);
    if DroppedBy(a, {c}) == {} { assert c in b.recs[r].consumers; }
  }

  /** In the middle of the loop of `deliver`: `done` were offered the event. */
  ghost predicate Offering(st: State, now: State, r: SubRef, done: set<ConsumerRef>, event: StreamEvent) {
    r in st.recs && Sound(st) && Sound(now) && now == Offer(st, r, done, event)
  }

  lemma OfferNext(st: State, now: State, r: SubRef, done: set<ConsumerRef>, c: ConsumerRef, event: StreamEvent)
    requires Offering(st, now, r, done, event) && done <= st.recs[r].consumers && c in st.recs[r].consumers
      && c !in done
    ensures r in now.recs && c in now.consumers && now.consumers[c].owner == r
    ensures Offering(st, Offer(now, r, {c}, event), r, done + {c}, event)
  {
    OfferMore(st, r, done, c, event);
    OwnersKept(st, r, done, event);
    assert now.consumers[c].owner == r;
    hide Owned, Latched, OfferedIn, DroppedBy, Teardown;
    OfferStaysOwned(now, r, {c}, event);
  }

  lemma OwnersKept(st: State, r: SubRef, part: set<ConsumerRef>, event: StreamEvent)
    requires r in st.recs
    ensures OfferOnly(st, r, part, event).consumers.Keys == st.consumers.Keys
    ensures forall c :: c in st.consumers ==> OfferOnly(st, r, part, event).consumers[c].owner == st.consumers[c].owner
  {
  }

  // ---------- One consumer ----------

  lemma OfferToClosed(st: State, r: SubRef, c: ConsumerRef, event: StreamEvent)
    requires r in st.recs && c in st.consumers && st.consumers[c].closed
    ensures Offer(st, r, {c}, event) == st
  {
    assert DroppedBy(st, {c}) == {};
    assert st.recs[r].consumers - {} == st.recs[r].consumers;
    assert st.recs[r := st.recs[r]] == st.recs;
    assert OfferedIn(st.maxQueue, st.consumers, {c}, event) == st.consumers;
  }

  lemma OfferWithRoom(st: State, r: SubRef, c: ConsumerRef, event: StreamEvent)
    requires r in st.recs && c in st.consumers && !st.consumers[c].closed
      && |st.consumers[c].log| - st.consumers[c].read < st.maxQueue
    ensures Offer(st, r, {c}, event) ==
      st.(consumers := st.consumers[c := st.consumers[c].(log := st.consumers[c].log + [event])])
  {
    assert DroppedBy(st, {c}) == {};
    assert st.recs[r].consumers - {} == st.recs[r].consumers;
    assert st.recs[r := st.recs[r]] == st.recs;
    assert OfferedIn(st.maxQueue, st.consumers, {c}, event) ==
      st.consumers[c := st.consumers[c].(log := st.consumers[c].log + [event])];
  }

  lemma OfferToFull(st: State, r: SubRef, c: ConsumerRef, event: StreamEvent)
    requires r in st.recs && c in st.consumers && Overflows(st.maxQueue, st.consumers[c])
    ensures DroppedBy(st, {c}) == {c}
    ensures OfferOnly(st, r, {c}, event) ==
      st.(recs := st.recs[r := st.recs[r].(consumers := st.recs[r].consumers - {c})],
          consumers := st.consumers[c := Finished(st.consumers[c], Some(QueueOverflow))])
  {
    assert OfferedIn(st.maxQueue, st.consumers, {c}, event) ==
      st.consumers[c := Finished(st.consumers[c], Some(QueueOverflow))];
  }

  /** Everything a late joiner is told. */
  ghost predicate SameView(s: Sub, s': Sub) {
    CatchUpEvents(s') == CatchUpEvents(s) && SharedOf(s') == SharedOf(s)
  }

  lemma TeardownKeepsView(st: State, r: SubRef)
    requires r in st.recs
    ensures var st' := Teardown(st, r);
      && SameView(st.recs[r], st'.recs[r])
      && st'.consumers.Keys == st.consumers.Keys
      && (forall c :: c in st.consumers ==> st'.consumers[c].owner == st.consumers[c].owner)
  {
    hide SortedOrders, Maybe;
    assert SameView(st.recs[r], TeardownOne(st, r).recs[r]);
  }

  /** Offering changes nothing a late joiner is told, and no consumer's owner. */
  lemma OfferKeepsView(st: State, r: SubRef, part: set<ConsumerRef>, event: StreamEvent)
    requires r in st.recs
    ensures var st' := Offer(st, r, part, event);
      && SameView(st.recs[r], st'.recs[r])
      && st'.consumers.Keys == st.consumers.Keys
      && (forall c :: c in st.consumers ==> st'.consumers[c].owner == st.consumers[c].owner)
  {
    var st1 := OfferOnly(st, r, part, event);
    assert SameView(st.recs[r], st1.recs[r]);
    OwnersKept(st, r, part, event);
    TeardownKeepsView(st1, r);
  }

  lemma CatchUpInOrder(st: State, r: SubRef, c: ConsumerRef)
    requires r in st.recs
    ensures OfferEach(st, r, c, []) == st
    ensures var s := st.recs[r];
      var orders := if s.orders.Some? then SortedOrders(s.orders.value) else [];
      CatchUp(st, r, c) == OfferEach(st, r, c,
        [] + Maybe(s.state == SubConnected, Connected) + Maybe(s.orders.Some?, Snapshot(orders)) + Maybe(s.ready,
          Ready) +
        Maybe(s.stale, Stale(true, s.staleReason, s.staleOrderIds)))
  {
    hide SortedOrders, Offer, Maybe;
    assert [] + Maybe(st.recs[r].state == SubConnected, Connected) ==
      Maybe(st.recs[r].state == SubConnected, Connected);
  }

  // ---------- Loops that finish consumers ----------

  lemma FinishMore(consumers: map<ConsumerRef, Consumer>, done: set<ConsumerRef>, c: ConsumerRef, err: Option<Failure>)
    requires c in consumers && c !in done
    ensures FinishedIn(consumers, done, err)[c := Finished(consumers[c], err)] == FinishedIn(consumers, done + {c}, err)
  {
  }

  lemma FinishOne(consumers: map<ConsumerRef, Consumer>, c: ConsumerRef, err: Option<Failure>)
    requires c in consumers
    ensures FinishedIn(consumers, {c}, err) == consumers[c := Finished(consumers[c], err)]
  {
  }

  lemma FinishStaysOwned(st: State, r: SubRef, err: Option<Failure>)
    requires Sound(st) && r in st.recs
    ensures Sound(FinishConsumers(st, r, err))
  {
    FinishedLatched(st.consumers, st.recs[r].consumers, err);
    FinishOwned(st.subs, st.recs, st.consumers, r, st.recs[r].consumers, err);
    assert st.recs[r].consumers - st.recs[r].consumers == {};
  }

  // ---------- The loop of `detach` ----------

  ghost predicate PartlyDetached(recs: map<SubRef, Sub>, now: map<SubRef, Sub>, done: set<SubRef>) {
    && now.Keys == recs.Keys
    && (forall r :: r in recs ==> now[r] == if r in done then DetachedRec(recs[r]) else recs[r])
  }

  lemma DetachMore(recs: map<SubRef, Sub>, now: map<SubRef, Sub>, done: set<SubRef>, r: SubRef)
    requires PartlyDetached(recs, now, done) && r in recs && r !in done
    ensures r in now && now[r] == recs[r] && PartlyDetached(recs, now[r := DetachedRec(recs[r])], done + {r})
  {
  }

  lemma AllDetached(subs: map<Account, SubRef>, recs: map<SubRef, Sub>, now: map<SubRef, Sub>)
    requires Rostered(subs, recs)
    requires PartlyDetached(recs, now, subs.Values)
    ensures now == DetachedIn(subs, recs)
  {
    assert forall r :: r in recs ==> (r in subs.Values <==> IsCurrent(subs, recs, r));
  }

  // ---------- Subscribing ----------

  lemma PatchSound(st: State, r: SubRef, s: Sub)
    requires Sound(st) && r in st.recs
    requires s.account == st.recs[r].account && s.consumers == st.recs[r].consumers && (Current(st, r) || s.sub == 0)
    ensures Sound(WithRec(st, r, s))
  {
    PatchOwned(st.subs, st.recs, st.consumers, r, s);
  }

  function RedialRec(st: State, conn: int, r: SubRef): Sub
    requires r in st.recs
  {
    var s := st.recs[r];
    if s.retries > 0 then
      s.(retries := s.retries + 1, retryTimer := if st.sess.None? then None else Some(Timer(st.timerSeq, conn, 0)))
    else s.(retries := 1)
  }

  lemma DropSound(st: State, r: SubRef)
    requires Sound(st) && r in st.recs
    ensures Sound(DropServerSub(st, r))
  {
    PatchSound(st, r, DroppedRec(st.recs[r]));
    hide Owned, Latched;
  }

  lemma SubscribePatches(st: State, conn: int, r: SubRef)
    ensures var st' := SubscribeServer(st, conn, r);
      st'.recs == st.recs && st'.subs == st.subs && st'.consumers == st.consumers
  {
  }

  lemma RedialPatches(st: State, conn: int, r: SubRef)
    requires r in st.recs
    ensures var st' := Redial(st, conn, r);
      st'.recs == st.recs[r := RedialRec(st, conn, r)] && st'.subs == st.subs && st'.consumers == st.consumers
  {
    var s := st.recs[r];
    if s.retries <= 0 {
      hide SubscribeServer;
      SubscribePatches(WithRec(st, r, s.(retries := 1)), conn, r);
    }
  }

  lemma RedialSound(st: State, conn: int, r: SubRef)
    requires Sound(st) && r in st.recs
    ensures Sound(Redial(st, conn, r))
  {
    PatchSound(st, r, RedialRec(st, conn, r));
    RedialPatches(st, conn, r);
    hide Owned, Latched, Redial;
  }

  /** The three parts of joining: a run, a subscription, a consumer. */
  function Started(st: State): State {
    st.(sess := if st.sess.None? then Some(st.sessSeq + 1) else st.sess,
        sessSeq := if st.sess.None? then st.sessSeq + 1 else st.sessSeq)
  }

  function Enrolled(st: State, account: Account, r: SubRef): State {
    if account in st.subs then st
    else st.(subs := st.subs[account := r], recs := st.recs[r := NewRec.(account := account)])
  }

  function Included(st: State, r: SubRef, c: ConsumerRef): State
    requires r in st.recs
  {
    st.(recs := st.recs[r := st.recs[r].(consumers := st.recs[r].consumers + {c})],
        consumers := st.consumers[c := NewConsumer(r)])
  }

  lemma JoinAssembled(st: State, account: Account, c: ConsumerRef, r: SubRef)
    requires account in st.subs ==> st.subs[account] in st.recs
    ensures var st' := Enrolled(Started(st), account, r);
      account in st'.subs && st'.subs[account] in st'.recs
        && Join(st, account, c, r) == Included(st', st'.subs[account], c)
  {
    if account in st.subs {
      assert st.subs[account := st.subs[account]] == st.subs;
    } else {
      var base := NewRec.(account := account);
      Patched(st.recs, r, base, base.(consumers := base.consumers + {c}));
    }
  }

  lemma JoinSound(st: State, account: Account, c: ConsumerRef, r: SubRef)
    requires Sound(st) && c !in st.consumers && r !in st.recs
    ensures account in st.subs ==> st.subs[account] in st.recs
    ensures Sound(Join(st, account, c, r))
  {
    JoinOwned(st.subs, st.recs, st.consumers, account, JoinedAs(st, account, r), JoinedRec(st, account, r, c), c);
  }

  // ---------- Orders of a loop over the subscriptions ----------

  ghost function Listed(xs: set<SubRef>): (order: seq<SubRef>)
    ensures Enumerates(order, xs)
  {
    if xs == {} then []
    else
      var x :| x in xs;
      Listed(xs - {x}) + [x]
  }
}
