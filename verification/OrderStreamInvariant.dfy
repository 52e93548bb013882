/**
 What every locked section of the private order stream keeps.

 `Core` is the bookkeeping that holds even between the calls one section
 makes; `Settled` says of one subscription what holds when the lock is free;
 `Inv` is both. `Elsewhere` is the frame of the helpers: what working on one
 subscription leaves alone on the others, teardown from inside a delivery
 included.
 */
module OrderStreamInvariant {
  import opened Basics
  import opened OrderStreamModel

  // ---------- The state a consumer can rebuild ----------

  /** What every consumer of one subscription is to know. */
  datatype Shared = Shared(
    orders: Option<OrderMap>,
    connected: bool,
    ready: bool,
    stale: bool,
    staleReason: int,
    staleOrderIds: seq<int>)

  function SharedOf(s: Sub): Shared {
    Shared(s.orders, s.state == SubConnected, s.ready, s.stale, s.staleReason, s.staleOrderIds)
  }

  /** A consumer following the documented reading of one event. */
  function FoldEvent(v: Shared, event: StreamEvent): Shared {
    match event
    case Connected => v.(connected := true)
    case Disconnected => v.(connected := false, ready := false)
    case Snapshot(orders) => v.(orders := Some(Upsert(map[], orders)))
    case Ready => v.(ready := true)
    case Unit(changed, removed) =>
      if v.orders.Some? then v.(orders := Some(ApplyUnit(v.orders.value, changed, removed))) else v
    case Stale(stale, reason, ids) => v.(stale := stale, staleReason := reason, staleOrderIds := ids)
    case StreamError(_) => v
  }

  function Folded(log: seq<StreamEvent>): Shared {
    if log == [] then Shared(None, false, false, false, 0, []) else FoldEvent(Folded(Init(log)), Last(log))
  }

  lemma FoldedAppend(log: seq<StreamEvent>, event: StreamEvent)
    ensures Folded(log + [event]) == FoldEvent(Folded(log), event)
  {
    assert Init(log + [event]) == log;
  }

  // ---------- Core bookkeeping ----------

  // Each predicate names only the fields it speaks of.

  /** The account map, the subscriptions and the consumers own each other consistently. */
  ghost predicate Owned(subs: map<Account, SubRef>, recs: map<SubRef, Sub>, consumers: map<ConsumerRef, Consumer>) {
    && (forall a :: a in subs ==> subs[a] in recs && recs[subs[a]].account == a)
    && (forall r, c :: r in recs && c in recs[r].consumers ==>
          c in consumers && consumers[c].owner == r && !consumers[c].chClosed)
    && (forall c :: c in consumers && !consumers[c].chClosed ==>
          consumers[c].owner in recs && c in recs[consumers[c].owner].consumers)
    && (forall r :: r in recs && !IsCurrent(subs, recs, r) ==> recs[r].consumers == {} && recs[r].sub == 0)
  }

  predicate SoundQueue(maxQueue: int, k: Consumer) {
    && (k.chClosed ==> k.closed)
    && 0 <= k.read <= |k.log| <= k.read + maxQueue
  }

  ghost predicate Queued(maxQueue: int, consumers: map<ConsumerRef, Consumer>) {
    && maxQueue > 0
    && (forall c :: c in consumers ==> SoundQueue(maxQueue, consumers[c]))
  }

  /** The run exists exactly while a subscription does, and nothing of a connection outlives it. */
  ghost predicate Wired(st: State) {
    && (st.subs != map[] <==> st.sess.Some?)
    && (st.sess.None? ==> st.conn.None? && !st.connecting && st.reconnectTimer.None?)
    && st.authSent == st.conn.Some?
    && (st.conn.None? ==> st.pending == map[] && st.bySub == map[] && st.unsubscribing == {})
  }

  /** `bySub` is the inverse of `sub`; every request belongs to a current subscription. */
  ghost predicate Routed(subs: map<Account, SubRef>, recs: map<SubRef, Sub>, bySub: map<ServerSub, SubRef>,
                         pending: map<RequestId, Request>, requestSeq: int)
  {
    && requestSeq >= 0
    && (forall sid :: sid in bySub ==> IsCurrent(subs, recs, bySub[sid]) && recs[bySub[sid]].sub == sid && sid != 0)
    && (forall r :: r in recs && recs[r].sub != 0 ==> recs[r].sub in bySub && bySub[recs[r].sub] == r)
    && (forall id :: id in pending ==> IsCurrent(subs, recs, pending[id].s) && 0 < id <= requestSeq)
  }

  /** A token fetch still in flight for a pending request is that request's, on this connection, not yet written. */
  ghost predicate Ticketed(pending: map<RequestId, Request>, conn: Option<int>, tasks: set<Task>,
                           sent: map<RequestId, Subscribe>, requestSeq: int)
  {
    && (forall id :: id in sent ==> id <= requestSeq)
    && (forall id :: id in sent && id in pending ==> pending[id].kind == RequestSubscribe)
    && (forall c: int, r: SubRef, id: RequestId :: SubscribeTask(c, r, id) in tasks ==> id <= requestSeq)
    && (forall c: int, r: SubRef, id: RequestId :: SubscribeTask(c, r, id) in tasks && id in pending ==>
          pending[id] == Request(RequestSubscribe, r) && conn == Some(c) && id !in sent)
  }

  /** `connecting` is set exactly while this run's connect goroutine is in flight. */
  ghost predicate Dialled(sess: Option<int>, sessSeq: int, connecting: bool, tasks: set<Task>) {
    && (forall x: int :: ConnectTask(x) in tasks ==> x <= sessSeq)
    && (sess.Some? ==> sess.value <= sessSeq && (connecting <==> ConnectTask(sess.value) in tasks))
  }

  ghost predicate Core(st: State) {
    && Owned(st.subs, st.recs, st.consumers)
    && Queued(st.maxQueue, st.consumers)
    && Wired(st)
    && Routed(st.subs, st.recs, st.bySub, st.pending, st.requestSeq)
    && Ticketed(st.pending, st.conn, st.tasks, st.sent, st.requestSeq)
    && Dialled(st.sess, st.sessSeq, st.connecting, st.tasks)
  }

  // ---------- One subscription when the lock is free ----------

  predicate Awaits(st: State, id: RequestId, r: SubRef) {
    id in st.pending && st.pending[id] == Request(RequestSubscribe, r)
  }

  ghost predicate Waiting(st: State, r: SubRef) {
    exists id :: Awaits(st, id, r)
  }

  /**
   A pending subscribe is going to be looked at again: its token is being fetched, or it is written and its
   confirmation timer is armed.
   */
  predicate Awake(st: State, id: RequestId, r: SubRef)
    requires r in st.recs && st.conn.Some?
  {
    || SubscribeTask(st.conn.value, r, id) in st.tasks
    || (&& id in st.sent
        && st.recs[r].ackTimer.Some?
        && st.recs[r].ackTimer.value.conn == st.conn.value
        && st.recs[r].ackTimer.value.request == id)
  }

  /** Exactly one of: a live server subscription, one pending subscribe, an armed retry timer. */
  ghost predicate Served(st: State, r: SubRef)
    requires r in st.recs && st.conn.Some?
  {
    var s := st.recs[r];
    && (s.sub != 0 ==> !Waiting(st, r) && s.retryTimer.None?)
    && (Waiting(st, r) ==> s.retryTimer.None?)
    && (s.sub == 0 && s.retryTimer.None? ==> Waiting(st, r))
    && (forall i, j :: Awaits(st, i, r) && Awaits(st, j, r) ==> i == j)
    && (forall id :: Awaits(st, id, r) ==> Awake(st, id, r))
    && (s.retryTimer.Some? ==> s.retryTimer.value.conn == st.conn.value)
  }

  /** An armed confirmation timer belongs to a subscribe written on this connection. */
  predicate AckKnown(st: State, r: SubRef)
    requires r in st.recs
  {
    st.conn.Some? && st.recs[r].ackTimer.Some? ==>
      st.recs[r].ackTimer.value.conn == st.conn.value && st.recs[r].ackTimer.value.request in st.sent
  }

  ghost predicate Agrees(st: State, r: SubRef)
    requires r in st.recs
  {
    forall c :: c in st.recs[r].consumers && c in st.consumers && !st.consumers[c].closed ==>
      Folded(st.consumers[c].log) == SharedOf(st.recs[r])
  }

  predicate Keyed(s: Sub) {
    s.orders.Some? ==> forall k :: k in s.orders.value ==> s.orders.value[k].id == k
  }

  predicate Consistent(s: Sub) {
    && (s.state == SubConnected <==> s.sub != 0)
    && (s.ready ==> s.sub != 0)
    && (s.sub == 0 ==> !s.staging)
    && (s.sub != 0 ==> s.confirmed)
    && (!s.stale ==> s.staleReason == 0 && s.staleOrderIds == [])
    && s.retries >= 0 && (s.retryTimer.Some? ==> s.retries > 0)
    && Keyed(s)
  }

  /** A written subscribe asks for exactly the position the subscription still holds. */
  ghost predicate SentCurrent(st: State, r: SubRef)
    requires r in st.recs
  {
    forall id :: Awaits(st, id, r) && id in st.sent ==>
      st.sent[id] == Subscribe(st.recs[r].account, st.recs[r].cursor)
  }

  /** Someone listens, and something is going to happen next. */
  ghost predicate Carried(st: State, r: SubRef)
    requires r in st.recs
  {
    && st.recs[r].consumers != {}
    && (st.conn.Some? ==> Served(st, r))
    && AckKnown(st, r)
    && (st.conn.None? ==> st.recs[r].retryTimer.None? && st.recs[r].ackTimer.None?)
    && SentCurrent(st, r)
  }

  /** Everything but what the consumers know. */
  ghost predicate Steady(st: State, r: SubRef)
    requires r in st.recs
  {
    Carried(st, r) && Consistent(st.recs[r])
  }

  ghost predicate Settled(st: State, r: SubRef)
    requires r in st.recs
  {
    Steady(st, r) && Agrees(st, r)
  }

  /** The consumers will know what they are to know once they have `event`. */
  ghost predicate AgreesAfter(st: State, r: SubRef, event: StreamEvent)
    requires r in st.recs
  {
    forall c :: c in st.recs[r].consumers && c in st.consumers && !st.consumers[c].closed ==>
      FoldEvent(Folded(st.consumers[c].log), event) == SharedOf(st.recs[r])
  }

  ghost predicate AllSettled(st: State) {
    forall r :: Current(st, r) ==> Settled(st, r)
  }

  ghost predicate AllSettledBut(st: State, x: SubRef) {
    forall r :: Current(st, r) && r != x ==> Settled(st, r)
  }

  /** While a subscription exists: connected, connecting, or about to. */
  predicate Linked(st: State) {
    st.sess.Some? ==>
      || (st.conn.Some? && !st.connecting && st.reconnectTimer.None?)
      || (st.conn.None? && st.connecting && st.reconnectTimer.None?)
      || (st.conn.None? && !st.connecting && st.reconnectTimer.Some?)
  }

  ghost predicate Inv(st: State) {
    Core(st) && AllSettled(st) && Linked(st)
  }

  // ---------- Frames ----------

  /** `q` is untouched: its record, its consumers, its requests. */
  ghost predicate Same(st: State, st': State, q: SubRef)
    requires q in st.recs && q in st'.recs
  {
    && st'.recs[q] == st.recs[q]
    && (forall c :: c in st.recs[q].consumers ==>
      c in st.consumers && c in st'.consumers && st'.consumers[c] == st.consumers[c])
    && (forall id :: Awaits(st, id, q) <==> Awaits(st', id, q))
  }

  ghost predicate Grows(st: State, st': State) {
    && st'.recs.Keys == st.recs.Keys
    && st'.maxQueue == st.maxQueue
    && st.tasks <= st'.tasks
    && st'.sent == st.sent
    && st.requestSeq <= st'.requestSeq
  }

  /**
   A helper working on `r` leaves every other subscription untouched, ends none and starts none, and changes
   the connection only by ending the run.
   */
  ghost predicate Elsewhere(st: State, st': State, r: SubRef) {
    && Grows(st, st')
    && (forall q :: Current(st', q) ==> Current(st, q))
    && (forall q :: q != r && Current(st, q) ==> Current(st', q) && Same(st, st', q))
    && (st'.sess.Some? ==>
          st'.sess == st.sess && st'.conn == st.conn && st'.connecting == st.connecting
            && st'.reconnectTimer == st.reconnectTimer)
  }

  lemma WaitingSame(st: State, st': State, r: SubRef)
    requires forall id :: Awaits(st, id, r) <==> Awaits(st', id, r)
    ensures Waiting(st, r) <==> Waiting(st', r)
  {
    if Waiting(st, r) { var id :| Awaits(st, id, r); assert Awaits(st', id, r); }
    if Waiting(st', r) { var id :| Awaits(st', id, r); assert Awaits(st, id, r); }
  }

  lemma SteadyFrame(st: State, st': State, q: SubRef)
    requires q in st.recs && Steady(st, q)
    requires Grows(st, st') && Same(st, st', q)
    requires st'.conn == st.conn
    ensures Steady(st', q)
  {
    if st.conn.Some? {
      WaitingSame(st, st', q);
      forall id | Awaits(st', id, q) ensures Awake(st', id, q) {
        assert Awaits(st, id, q);
      }
      forall i, j | Awaits(st', i, q) && Awaits(st', j, q) ensures i == j {
        assert Awaits(st, i, q) && Awaits(st, j, q);
      }
    }
    forall id | Awaits(st', id, q) && id in st'.sent
      ensures st'.sent[id] == Subscribe(st'.recs[q].account, st'.recs[q].cursor)
    {
      assert Awaits(st, id, q);
    }
  }

  lemma SettledElsewhere(st: State, st': State, r: SubRef)
    requires Core(st) && Core(st') && AllSettledBut(st, r) && Elsewhere(st, st', r)
    ensures AllSettledBut(st', r)
  {
    forall q | Current(st', q) && q != r ensures Settled(st', q) {
      SteadyFrame(st, st', q);
    }
  }

  lemma SameTrans(a: State, b: State, c: State, q: SubRef)
    requires q in a.recs && q in b.recs && q in c.recs
    requires Same(a, b, q) && Same(b, c, q)
    ensures Same(a, c, q)
  {
    forall id ensures Awaits(a, id, q) <==> Awaits(c, id, q) {
      assert Awaits(a, id, q) <==> Awaits(b, id, q);
    }
  }

  lemma ElsewhereTrans(a: State, b: State, c: State, r: SubRef)
    requires Elsewhere(a, b, r) && Elsewhere(b, c, r)
    ensures Elsewhere(a, c, r)
  {
    forall q | q != r && Current(a, q) ensures Current(c, q) && Same(a, c, q) {
      SameTrans(a, b, c, q);
    }
  }
}
