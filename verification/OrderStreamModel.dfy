/**
 The private order stream (realtime/private_orders.go) as a transition system.

 Every section the Go code runs under its one mutex is one function from the
 state before it to the state after it. Goroutines and timers of the code are
 tokens (`Task`, `Timer`); each wakes up in a step of its own. Pointers are
 addresses (`SubRef`, `ConsumerRef`), so two subscriptions of one account that
 followed each other are different objects here as they are there. In string
 identifiers (request, server subscription, cursor) 0 stands for "".

 Loops over a Go map visit it in any order. A loop over the consumers of one
 subscription is modelled by its order-independent result (`Offer`); a loop
 over the subscriptions takes the visiting order as an argument.
 */
module OrderStreamModel {
  import opened Basics

  type RequestId = int
  type ServerSub = int
  type Cursor = int

  datatype Account = Account(id: int)
  datatype SubRef = SubRef(address: int)
  datatype ConsumerRef = ConsumerRef(address: int)

  // ---------- Entities ----------

  datatype Order = Order(id: nat, body: int)

  type OrderMap = map<nat, Order>

  datatype Failure =
    | QueueOverflow
    | TokenRefused
    | Transient
    | SubscribeTimeout
    | BadFrame
    | RequestFailed(code: ErrorCode)
    | ConnectionClosed(closeCode: int)

  datatype ErrorCode = CursorInvalid | SubscriptionUnknown | OtherCode(n: int)

  /** What a consumer receives (realtime/order_stream.go). */
  datatype StreamEvent =
    | Connected
    | Disconnected
    | Snapshot(orders: seq<Order>)
    | Ready
    | Unit(changed: seq<Order>, removed: seq<int>)
    | Stale(stale: bool, reason: int, orderIds: seq<int>)
    | StreamError(failure: Failure)

  /**
   One consumer: its bounded channel, with everything ever sent to it in `log` and the first `read` of those
   already taken.
   */
  datatype Consumer = Consumer(
    owner: SubRef,
    closed: bool,
    chClosed: bool,
    log: seq<StreamEvent>,
    read: int,
    err: Option<Failure>)

  datatype SubState = SubPending | SubConnected | SubDisconnected

  /** A timer's identity and what its closure captured. `request` is 0 for a retry timer. */
  datatype Timer = Timer(id: int, conn: int, request: RequestId)

  datatype Sub = Sub(
    account: Account,
    consumers: set<ConsumerRef>,
    sub: ServerSub,
    seqNo: int,
    cursor: Cursor,
    staging: bool,
    staged: seq<Order>,
    orders: Option<OrderMap>,
    state: SubState,
    stale: bool,
    staleReason: int,
    staleOrderIds: seq<int>,
    ready: bool,
    retries: int,
    retryTimer: Option<Timer>,
    confirmed: bool,
    ackTimer: Option<Timer>)

  datatype RequestKind = RequestSubscribe | RequestRefresh

  datatype Request = Request(kind: RequestKind, s: SubRef)

  /** A goroutine waiting for a token (or the dial), with what it captured. */
  datatype Task =
    | ConnectTask(sess: int)
    | ReauthTask(conn: int)
    | SubscribeTask(conn: int, s: SubRef, request: RequestId)
    | RefreshTask(conn: int, s: SubRef, serverSub: ServerSub)

  /** The payload of a Subscribe message written to the socket. */
  datatype Subscribe = Subscribe(account: Account, cursor: Cursor)

  datatype State = State(
    maxQueue: int,
    subs: map<Account, SubRef>,
    recs: map<SubRef, Sub>,
    consumers: map<ConsumerRef, Consumer>,
    pending: map<RequestId, Request>,
    bySub: map<ServerSub, SubRef>,
    unsubscribing: set<RequestId>,
    sess: Option<int>,
    conn: Option<int>,
    connecting: bool,
    authSent: bool,
    reconnectAttempt: int,
    reconnectTimer: Option<int>,
    requestSeq: int,
    // History: identities handed out, goroutines in flight, Subscribe messages written.
    sessSeq: int,
    connSeq: int,
    timerSeq: int,
    tasks: set<Task>,
    sent: map<RequestId, Subscribe>)

  function InitialState(maxQueue: int): State {
    State(maxQueue, map[], map[], map[], map[], map[], {}, None, None, false, false, 0, None, 0, 0, 0, 0, {}, map[])
  }

  // ---------- Live views ----------

  function Upsert(m: OrderMap, orders: seq<Order>): OrderMap {
    if orders == [] then m else Upsert(m, Init(orders))[Last(orders).id := Last(orders)]
  }

  function ApplyUnit(m: OrderMap, changed: seq<Order>, removed: seq<int>): OrderMap {
    var up := Upsert(m, changed);
    map k | k in up && k !in removed :: up[k]
  }

  /** Keys of `m` in ascending order, followed by the values they have (`sortedOrders`). */
  function SortedOrders(m: OrderMap): seq<Order>
    decreases |m|
  {
    if m == map[] then []
    else
      MaxKeyExists(m.Keys);
      var k := MaxKey(m.Keys);
      SortedOrders(m - {k}) + [m[k]]
  }

  function MaxKey(ks: set<nat>): (k: nat)
    requires ks != {}
    ensures k in ks && forall x :: x in ks ==> x <= k
  {
    MaxKeyExists(ks);
    var k :| k in ks && forall x :: x in ks ==> x <= k;
    k
  }

  lemma {:induction false} MaxKeyExists(ks: set<nat>)
    requires ks != {}
    ensures exists k :: k in ks && forall x :: x in ks ==> x <= k
    decreases |ks|
  {
    var any :| any in ks;
    if ks - {any} != {} {
      MaxKeyExists(ks - {any});
      var k :| k in ks - {any} && forall x :: x in ks - {any} ==> x <= k;
      var top := if k < any then any else k;
      forall x | x in ks ensures x <= top {
        if x != any { assert x in ks - {any}; }
      }
    } else {
      assert ks == {any};
      assert any in ks && forall x :: x in ks ==> x <= any;
    }
  }

  // ---------- Predicates of the code ----------

  predicate IsCurrent(subs: map<Account, SubRef>, recs: map<SubRef, Sub>, r: SubRef) {
    r in recs && recs[r].account in subs && subs[recs[r].account] == r
  }

  /** `isCurrent`. */
  predicate Current(st: State, r: SubRef) {
    IsCurrent(st.subs, st.recs, r)
  }

  predicate Overflows(maxQueue: int, k: Consumer) {
    !k.closed && |k.log| - k.read >= maxQueue
  }

  // ---------- Consumers ----------

  function Finished(k: Consumer, err: Option<Failure>): Consumer {
    k.(closed := true, chClosed := true, err := if k.err.None? then err else k.err)
  }

  function Offered(maxQueue: int, k: Consumer, event: StreamEvent): Consumer {
    if k.closed then k
    else if Overflows(maxQueue, k) then Finished(k, Some(QueueOverflow))
    else k.(log := k.log + [event])
  }

  function WithRec(st: State, r: SubRef, s: Sub): (st': State)
    ensures r in st'.recs
    ensures r in st.recs ==> st'.recs.Keys == st.recs.Keys
  {
    st.(recs := st.recs[r := s])
  }

  function FinishedIn(consumers: map<ConsumerRef, Consumer>, cs: set<ConsumerRef>,
      err: Option<Failure>): map<ConsumerRef, Consumer> {
    map c | c in consumers :: if c in cs then Finished(consumers[c], err) else consumers[c]
  }

  function OfferedIn(maxQueue: int, consumers: map<ConsumerRef, Consumer>, part: set<ConsumerRef>,
      event: StreamEvent): map<ConsumerRef, Consumer> {
    map c | c in consumers :: if c in part then Offered(maxQueue, consumers[c], event) else consumers[c]
  }

  function DroppedBy(st: State, part: set<ConsumerRef>): set<ConsumerRef> {
    set c | c in part && c in st.consumers && Overflows(st.maxQueue, st.consumers[c])
  }

  /**
   `offer` to each consumer in `part`: queued, dropped when closed, or failed when its queue is full; losing
   the last consumer tears the subscription down.
   */
  function Offer(st: State, r: SubRef, part: set<ConsumerRef>, event: StreamEvent): (st': State)
    requires r in st.recs
    ensures st'.recs.Keys == st.recs.Keys
  {
    var st1 := OfferOnly(st, r, part, event);
    if DroppedBy(st, part) != {} && st1.recs[r].consumers == {} then Teardown(st1, r) else st1
  }

  /** `Offer` before the test whether it lost the last consumer. */
  function OfferOnly(st: State, r: SubRef, part: set<ConsumerRef>, event: StreamEvent): (st': State)
    requires r in st.recs
    ensures st'.recs.Keys == st.recs.Keys
  {
    st.(recs := st.recs[r := st.recs[r].(consumers := st.recs[r].consumers - DroppedBy(st, part))],
        consumers := OfferedIn(st.maxQueue, st.consumers, part, event))
  }

  /** `deliver`; `report` is the same loop with a `StreamError`. */
  function Deliver(st: State, r: SubRef, event: StreamEvent): (st': State)
    requires r in st.recs
    ensures st'.recs.Keys == st.recs.Keys
  {
    Offer(st, r, st.recs[r].consumers, event)
  }

  function Report(st: State, r: SubRef, failure: Failure): (st': State)
    requires r in st.recs
    ensures st'.recs.Keys == st.recs.Keys
  {
    Deliver(st, r, StreamError(failure))
  }

  // ---------- Ending subscriptions and runs ----------

  function Unsubscribe(st: State): State {
    st.(requestSeq := st.requestSeq + 1, unsubscribing := st.unsubscribing + {st.requestSeq + 1})
  }

  function DetachedRec(s: Sub): Sub {
    s.(retryTimer := None, ackTimer := None, sub := 0, seqNo := 0, ready := false, staging := false, staged := [])
  }

  function Detach(st: State): (st': State)
    ensures st'.recs.Keys == st.recs.Keys
  {
    st.(conn := None, authSent := false, pending := map[], bySub := map[], unsubscribing := {},
        recs := DetachedIn(st.subs, st.recs))
  }

  function DetachedIn(subs: map<Account, SubRef>, recs: map<SubRef, Sub>): map<SubRef, Sub> {
    map r | r in recs :: if IsCurrent(subs, recs, r) then DetachedRec(recs[r]) else recs[r]
  }

  function Shutdown(st: State): (st': State)
    ensures st'.recs.Keys == st.recs.Keys
  {
    Detach(st).(reconnectTimer := None, reconnectAttempt := 0, connecting := false, sess := None)
  }

  function Teardown(st: State, r: SubRef): (st': State)
    requires r in st.recs
    ensures st'.recs.Keys == st.recs.Keys
  {
    if !Current(st, r) then st
    else
      var st1 := TeardownOne(st, r);
      if st1.subs == map[] then Shutdown(st1) else st1
  }

  function RequestsBut(pending: map<RequestId, Request>, r: SubRef): map<RequestId, Request> {
    map id | id in pending && pending[id].s != r :: pending[id]
  }

  /** `teardown` up to the test whether any subscription is left. */
  function TeardownOne(st: State, r: SubRef): (st': State)
    requires r in st.recs
    ensures st'.recs.Keys == st.recs.Keys
  {
    var s := st.recs[r];
    var live := st.conn.Some? && s.sub != 0;
    st.(subs := st.subs - {s.account},
        recs := st.recs[r := s.(consumers := {}, retryTimer := None, ackTimer := None, sub := 0)],
        consumers := FinishedIn(st.consumers, s.consumers, None),
        pending := RequestsBut(st.pending, r),
        bySub := if live then st.bySub - {s.sub} else st.bySub,
        requestSeq := if live then st.requestSeq + 1 else st.requestSeq,
        unsubscribing := if live then st.unsubscribing + {st.requestSeq + 1} else st.unsubscribing)
  }

  function WithState(st: State, r: SubRef, state: SubState): (st': State)
    requires r in st.recs
    ensures st'.recs.Keys == st.recs.Keys
  {
    WithRec(st, r, st.recs[r].(state := state))
  }

  function FinishConsumers(st: State, r: SubRef, err: Option<Failure>): (st': State)
    requires r in st.recs
    ensures st'.recs.Keys == st.recs.Keys
  {
    st.(recs := st.recs[r := st.recs[r].(consumers := {})],
        consumers := FinishedIn(st.consumers, st.recs[r].consumers, err))
  }

  function Terminate(st: State, r: SubRef, failure: Failure): (st': State)
    requires r in st.recs
    ensures st'.recs.Keys == st.recs.Keys
  {
    if !Current(st, r) then st
    else
      Teardown(FinishConsumers(Farewell(st, r, failure), r, Some(failure)), r)
  }

  /** The error and the disconnect that `terminate` leaves in the queues. */
  function Farewell(st: State, r: SubRef, failure: Failure): (st': State)
    requires r in st.recs
    ensures st'.recs.Keys == st.recs.Keys
  {
    var st1 := Report(st, r, failure);
    if st1.recs[r].state != SubDisconnected then Deliver(WithState(st1, r, SubDisconnected), r, Disconnected) else st1
  }

  function TerminateAll(st: State, failure: Failure, order: seq<SubRef>): (st': State)
    requires forall i :: 0 <= i < |order| ==> order[i] in st.recs
    ensures st'.recs.Keys == st.recs.Keys
    decreases |order|
  {
    if order == [] then st
    else Terminate(TerminateAll(st, failure, Init(order)), Last(order), failure)
  }

  function ReportAll(st: State, failure: Failure, order: seq<SubRef>): (st': State)
    requires forall i :: 0 <= i < |order| ==> order[i] in st.recs
    ensures st'.recs.Keys == st.recs.Keys
    decreases |order|
  {
    if order == [] then st
    else Report(ReportAll(st, failure, Init(order)), Last(order), failure)
  }

  // ---------- Timers, token requests, resubscribing ----------

  function Open(st: State): (st': State)
    ensures st'.recs == st.recs
  {
    st.(connecting := true, tasks := if st.sess.Some? then st.tasks + {ConnectTask(st.sess.value)} else st.tasks)
  }

  function ScheduleReconnect(st: State): (st': State)
    ensures st'.recs == st.recs
  {
    st.(reconnectAttempt := st.reconnectAttempt + 1,
        reconnectTimer := if st.sess.None? then None else Some(st.timerSeq),
        timerSeq := st.timerSeq + 1)
  }

  function SubscribeServer(st: State, conn: int, r: SubRef): (st': State)
    ensures st'.recs == st.recs
  {
    if !Current(st, r) then st
    else
      var id := st.requestSeq + 1;
      st.(requestSeq := id,
          pending := st.pending[id := Request(RequestSubscribe, r)],
          tasks := if st.sess.Some? then st.tasks + {SubscribeTask(conn, r, id)} else st.tasks)
  }

  /** `authenticate`: the loop subscribing every account on the new connection. */
  function SubscribeAll(st: State, conn: int, order: seq<SubRef>): (st': State)
    ensures st'.recs == st.recs
    decreases |order|
  {
    if order == [] then st
    else SubscribeServer(SubscribeAll(st, conn, Init(order)), conn, Last(order))
  }

  function RetrySubscribe(st: State, conn: int, r: SubRef): (st': State)
    requires r in st.recs
    ensures st'.recs.Keys == st.recs.Keys
  {
    var timer := if st.sess.None? then None else Some(Timer(st.timerSeq, conn, 0));
    st.(recs := st.recs[r := st.recs[r].(retries := st.recs[r].retries + 1, retryTimer := timer)],
        timerSeq := st.timerSeq + 1)
  }

  function DroppedRec(s: Sub): Sub {
    s.(sub := 0, seqNo := 0, ready := false, staging := false, staged := [])
  }

  function DropServerSub(st: State, r: SubRef): (st': State)
    requires r in st.recs
    ensures st'.recs.Keys == st.recs.Keys
  {
    var live := st.recs[r].sub != 0;
    st.(recs := st.recs[r := DroppedRec(st.recs[r])],
        bySub := if live then st.bySub - {st.recs[r].sub} else st.bySub,
        requestSeq := if live then st.requestSeq + 1 else st.requestSeq,
        unsubscribing := if live then st.unsubscribing + {st.requestSeq + 1} else st.unsubscribing)
  }

  /** `resubscribe` once the server subscription is dropped: at once the first time, then with backoff. */
  function Redial(st: State, conn: int, r: SubRef): (st': State)
    requires r in st.recs
    ensures st'.recs.Keys == st.recs.Keys
  {
    if st.recs[r].retries > 0 then RetrySubscribe(st, conn, r)
    else SubscribeServer(WithRec(st, r, st.recs[r].(retries := 1)), conn, r)
  }

  function Resubscribe(st: State, conn: int, r: SubRef): (st': State)
    requires r in st.recs
    ensures st'.recs.Keys == st.recs.Keys
  {
    NotifyDisconnected(Redial(DropServerSub(st, r), conn, r), r)
  }

  function NotifyDisconnected(st: State, r: SubRef): (st': State)
    requires r in st.recs
    ensures st'.recs.Keys == st.recs.Keys
  {
    if st.recs[r].state == SubConnected then Deliver(WithState(st, r, SubDisconnected), r, Disconnected) else st
  }

  function NotifyAllDisconnected(st: State, order: seq<SubRef>): (st': State)
    requires forall i :: 0 <= i < |order| ==> order[i] in st.recs
    ensures st'.recs.Keys == st.recs.Keys
    decreases |order|
  {
    if order == [] then st
    else NotifyDisconnected(NotifyAllDisconnected(st, Init(order)), Last(order))
  }

  // ---------- Consumer calls ----------

  const NewRec := Sub(Account(0), {}, 0, 0, 0, false, [], None, SubPending, false, 0, [], false, 0, None, false, None)

  function NewConsumer(r: SubRef): Consumer {
    Consumer(r, false, false, [], 0, None)
  }

  /**
   `subscribe` up to the choice between catching up, subscribing and connecting; `r` is the new subscription's
   pointer when the account has none.
   */
  function JoinedAs(st: State, account: Account, r: SubRef): SubRef {
    if account in st.subs then st.subs[account] else r
  }

  function JoinedRec(st: State, account: Account, r: SubRef, c: ConsumerRef): Sub
    requires account in st.subs ==> st.subs[account] in st.recs
  {
    var base := if account in st.subs then st.recs[st.subs[account]] else NewRec.(account := account);
    base.(consumers := base.consumers + {c})
  }

  function Join(st: State, account: Account, c: ConsumerRef, r: SubRef): (st': State)
    requires account in st.subs ==> st.subs[account] in st.recs
    ensures JoinedAs(st, account, r) in st'.recs
  {
    var starting := st.sess.None?;
    var q := JoinedAs(st, account, r);
    st.(sess := if starting then Some(st.sessSeq + 1) else st.sess,
        sessSeq := if starting then st.sessSeq + 1 else st.sessSeq,
        recs := st.recs[q := JoinedRec(st, account, r, c)],
        subs := st.subs[account := q],
        consumers := st.consumers[c := NewConsumer(q)])
  }

  function SubscribeCall(st: State, account: Account, c: ConsumerRef, r: SubRef): (st': State)
    requires account in st.subs ==> st.subs[account] in st.recs
  {
    var st1 := Join(st, account, c, r);
    if account in st.subs then CatchUp(st1, st.subs[account], c)
    else if st1.conn.Some? && st1.authSent then SubscribeServer(st1, st1.conn.value, r)
    else if st1.conn.None? && !st1.connecting && st1.reconnectTimer.None? then Open(st1)
    else st1
  }

  /** What a late joiner is told, in order. */
  function CatchUpEvents(s: Sub): seq<StreamEvent> {
    var orders := if s.orders.Some? then SortedOrders(s.orders.value) else [];
    Maybe(s.state == SubConnected, Connected) +
    Maybe(s.orders.Some?, Snapshot(orders)) +
    Maybe(s.ready, Ready) +
    Maybe(s.stale, Stale(true, s.staleReason, s.staleOrderIds))
  }

  function Maybe(given: bool, event: StreamEvent): seq<StreamEvent> {
    if given then [event] else []
  }

  function OfferEach(st: State, r: SubRef, c: ConsumerRef, events: seq<StreamEvent>): (st': State)
    requires r in st.recs
    ensures st'.recs.Keys == st.recs.Keys
    decreases |events|
  {
    if events == [] then st
    else Offer(OfferEach(st, r, c, Init(events)), r, {c}, Last(events))
  }

  function CatchUp(st: State, r: SubRef, c: ConsumerRef): (st': State)
    requires r in st.recs
    ensures st'.recs.Keys == st.recs.Keys
  {
    OfferEach(st, r, c, CatchUpEvents(st.recs[r]))
  }

  /** The first locked section of `Subscription.Close`; `Remove` is what follows it. */
  function CloseCall(st: State, c: ConsumerRef): State {
    if c in st.consumers then st.(consumers := st.consumers[c := st.consumers[c].(closed := true)]) else st
  }

  function Remove(st: State, r: SubRef, c: ConsumerRef): (st': State)
    requires r in st.recs
    ensures st'.recs.Keys == st.recs.Keys
  {
    if c !in st.recs[r].consumers then st
    else
      var st1 := st.(recs := st.recs[r := st.recs[r].(consumers := st.recs[r].consumers - {c})],
                     consumers := FinishedIn(st.consumers, {c}, None));
      if st1.recs[r].consumers == {} then Teardown(st1, r) else st1
  }

  function ReadOne(st: State, c: ConsumerRef): State {
    if c in st.consumers && st.consumers[c].read < |st.consumers[c].log|
    then st.(consumers := st.consumers[c := st.consumers[c].(read := st.consumers[c].read + 1)])
    else st
  }

  // ---------- Goroutines that return ----------

  datatype TokenResult = Token | Refused | Failed

  function ConnectReturned(st: State, sess: int, result: TokenResult, order: seq<SubRef>): (st': State)
    requires forall i :: 0 <= i < |order| ==> order[i] in st.recs
    ensures st'.recs.Keys == st.recs.Keys
  {
    var st0 := st.(tasks := st.tasks - {ConnectTask(sess)});
    if st.sess != Some(sess) then st0
    else
      var st1 := st0.(connecting := false);
      match result
      case Refused => TerminateAll(st1, TokenRefused, order)
      case Failed => ScheduleReconnect(ReportAll(st1, Transient, order))
      case Token =>
        SubscribeAll(st1.(conn := Some(st.connSeq), connSeq := st.connSeq + 1, authSent := true), st.connSeq, order)
  }

  function ReauthReturned(st: State, conn: int, result: TokenResult, order: seq<SubRef>): (st': State)
    requires forall i :: 0 <= i < |order| ==> order[i] in st.recs
    ensures st'.recs.Keys == st.recs.Keys
  {
    var st0 := st.(tasks := st.tasks - {ReauthTask(conn)});
    if st.conn != Some(conn) then st0
    else match result
      case Refused => TerminateAll(st0, TokenRefused, order)
      case Failed => ReportAll(st0, Transient, order)
      case Token => st0
  }

  function SubscribeTokenReturned(st: State, conn: int, r: SubRef, id: RequestId, result: TokenResult): (st': State)
    requires r in st.recs
    ensures st'.recs.Keys == st.recs.Keys
  {
    var st0 := st.(tasks := st.tasks - {SubscribeTask(conn, r, id)});
    if id !in st.pending || st.pending[id].s != r then st0
    else match result
      case Refused => Terminate(st0.(pending := st.pending - {id}), r, TokenRefused)
      case Failed => RetrySubscribe(Report(st0.(pending := st.pending - {id}), r, Transient), conn, r)
      case Token =>
        if st.conn != Some(conn) then st0
        else
          var timer := if st.sess.None? then None else Some(Timer(st.timerSeq, conn, id));
          WithRec(st0, r, st.recs[r].(ackTimer := timer)).(
            timerSeq := st.timerSeq + 1,
            sent := st.sent[id := Subscribe(st.recs[r].account, st.recs[r].cursor)])
  }

  function RefreshReturned(st: State, conn: int, r: SubRef, serverSub: ServerSub, result: TokenResult): (st': State)
    requires r in st.recs
    ensures st'.recs.Keys == st.recs.Keys
  {
    var st0 := st.(tasks := st.tasks - {RefreshTask(conn, r, serverSub)});
    if st.conn != Some(conn) || st.recs[r].sub != serverSub || !Current(st, r) then st0
    else if result != Token then Report(st0, r, if result == Refused then TokenRefused else Transient)
    else st0.(requestSeq := st.requestSeq + 1, pending := st.pending[st.requestSeq + 1 := Request(RequestRefresh, r)])
  }

  // ---------- Timers that fire ----------

  function ReconnectFired(st: State, timer: int): (st': State)
    ensures st'.recs == st.recs
  {
    if st.reconnectTimer != Some(timer) then st
    else
      var st1 := st.(reconnectTimer := None);
      if st.subs != map[] && st.conn.None? && !st.connecting then Open(st1) else st1
  }

  function RetryFired(st: State, r: SubRef, timer: Timer): (st': State)
    requires r in st.recs
    ensures st'.recs.Keys == st.recs.Keys
  {
    if st.recs[r].retryTimer != Some(timer) then st
    else
      var st1 := WithRec(st, r, st.recs[r].(retryTimer := None));
      if st.conn == Some(timer.conn) && Current(st, r) && st.recs[r].sub == 0
      then SubscribeServer(st1, timer.conn, r) else st1
  }

  function AckFired(st: State, r: SubRef, timer: Timer): (st': State)
    requires r in st.recs
    ensures st'.recs.Keys == st.recs.Keys
  {
    if st.recs[r].ackTimer != Some(timer) then st
    else ExpireSubscribe(WithRec(st, r, st.recs[r].(ackTimer := None)), timer.conn, r, timer.request)
  }

  function ExpireSubscribe(st: State, conn: int, r: SubRef, id: RequestId): (st': State)
    requires r in st.recs
    ensures st'.recs.Keys == st.recs.Keys
  {
    if id !in st.pending || st.pending[id].s != r then st
    else if !st.recs[r].confirmed then Terminate(st, r, SubscribeTimeout)
    else
      var st1 := Report(st.(pending := st.pending - {id}), r, SubscribeTimeout);
      if st1.conn == Some(conn) && Current(st1, r) && st1.recs[r].sub == 0 then RetrySubscribe(st1, conn, r) else st1
  }

  // ---------- Frames ----------

  datatype Frame =
    | Subscribed(id: RequestId)
    | SubscribeRefreshed(id: RequestId)
    | Unsubscribed(id: RequestId)
    | Error(id: RequestId, code: ErrorCode)
    | TokenExpiring
    | SnapshotBegin
    | SnapshotPage(orders: seq<Order>)
    | SnapshotEnd(count: int, cursor: Cursor)
    | UnitFrame(changed: seq<Order>, removed: seq<int>, nextCursor: Cursor)
    | Covered(cursor: Cursor)
    | ReadyFrame
    | ResyncRequired
    | Unavailable(reason: int, orderIds: seq<int>)
    | Available
    | SubscribeExpiring
    | UnknownFrame

  /** A frame as read from the socket: not binary or not decodable, or a message naming a server subscription. */
  datatype Incoming = Unreadable | Message(sub: ServerSub, seqNo: int, frame: Frame)

  function FrameArrived(st: State, conn: int, msg: Incoming, order: seq<SubRef>): (st': State)
    requires Rooted(st)
    requires forall i :: 0 <= i < |order| ==> order[i] in st.recs
    ensures st'.recs.Keys == st.recs.Keys
  {
    if st.conn != Some(conn) then st
    else if msg.Unreadable? then ReportAll(st, BadFrame, order)
    else match msg.frame
      case Subscribed(id) => OnSubscribed(st, id, msg.sub)
      case SubscribeRefreshed(id) => st.(pending := st.pending - {id})
      case Error(id, code) => OnRequestError(st, conn, msg.sub, id, code, order)
      case TokenExpiring => st.(tasks := if st.sess.Some? then st.tasks + {ReauthTask(conn)} else st.tasks)
      case Unsubscribed(id) =>
        if id in st.unsubscribing then st.(unsubscribing := st.unsubscribing - {id})
        else OnSubFrame(st, conn, msg.sub, msg.seqNo, msg.frame)
      case _ => OnSubFrame(st, conn, msg.sub, msg.seqNo, msg.frame)
  }

  /** The pointers the stream's maps hold are allocated. */
  ghost predicate Rooted(st: State) {
    && (forall id :: id in st.pending ==> st.pending[id].s in st.recs)
    && (forall sid :: sid in st.bySub ==> st.bySub[sid] in st.recs)
    && (forall a :: a in st.subs ==> st.subs[a] in st.recs)
  }

  function OnSubscribed(st: State, id: RequestId, sid: ServerSub): (st': State)
    requires Rooted(st)
    ensures st'.recs.Keys == st.recs.Keys
  {
    if id !in st.pending || st.pending[id].kind != RequestSubscribe then
      if sid != 0 then Unsubscribe(st) else st
    else
      var r := st.pending[id].s;
      var s := st.recs[r];
      var st1 := WithRec(st, r, s.(ackTimer := None, confirmed := true, sub := sid, seqNo := 0, ready := false)).(
        pending := st.pending - {id},
        bySub := st.bySub[sid := r]);
      NotifyFresh(NotifyConnected(st1, r), r)
  }

  function NotifyConnected(st: State, r: SubRef): (st': State)
    requires r in st.recs
    ensures st'.recs.Keys == st.recs.Keys
  {
    if st.recs[r].state != SubConnected then Deliver(WithState(st, r, SubConnected), r, Connected) else st
  }

  function FreshRec(s: Sub): Sub {
    s.(stale := false, staleReason := 0, staleOrderIds := [])
  }

  function NotifyFresh(st: State, r: SubRef): (st': State)
    requires r in st.recs
    ensures st'.recs.Keys == st.recs.Keys
  {
    if st.recs[r].stale then Deliver(WithRec(st, r, FreshRec(st.recs[r])), r, Stale(false, 0, [])) else st
  }

  function OnRequestError(st: State, conn: int, serverSub: ServerSub, id: RequestId, code: ErrorCode,
      order: seq<SubRef>): (st': State)
    requires Rooted(st)
    requires forall i :: 0 <= i < |order| ==> order[i] in st.recs
    ensures st'.recs.Keys == st.recs.Keys
  {
    if id == 0 then
      if serverSub in st.bySub then SubscriptionError(st, conn, st.bySub[serverSub], serverSub, code)
      else ReportAll(st, RequestFailed(code), order)
    else if id in st.unsubscribing then st.(unsubscribing := st.unsubscribing - {id})
    else if id !in st.pending then st
    else
      var st1 := st.(pending := st.pending - {id});
      if st.pending[id].kind == RequestSubscribe then SubscribeError(st1, conn, st.pending[id].s, code)
      else SubscriptionError(st1, conn, st.pending[id].s, serverSub, code)
  }

  /** A subscribe the server refused: again without the cursor it no longer has, or never. */
  function SubscribeError(st: State, conn: int, r: SubRef, code: ErrorCode): (st': State)
    requires r in st.recs
    ensures st'.recs.Keys == st.recs.Keys
  {
    if code == CursorInvalid then SubscribeServer(WithRec(st, r, st.recs[r].(cursor := 0)), conn, r)
    else Terminate(st, r, RequestFailed(code))
  }

  function SubscriptionError(st: State, conn: int, r: SubRef, serverSub: ServerSub, code: ErrorCode): (st': State)
    requires r in st.recs
    ensures st'.recs.Keys == st.recs.Keys
  {
    if code == SubscriptionUnknown && st.recs[r].sub == serverSub then ServerEnded(st, conn, r)
    else Report(st, r, RequestFailed(code))
  }

  /** The server subscription is gone on the server: forget it and subscribe again. */
  function ServerEnded(st: State, conn: int, r: SubRef): (st': State)
    requires r in st.recs
    ensures st'.recs.Keys == st.recs.Keys
  {
    Resubscribe(WithRec(st, r, st.recs[r].(sub := 0)).(bySub := st.bySub - {st.recs[r].sub}), conn, r)
  }

  function OnSubFrame(st: State, conn: int, sid: ServerSub, seqNo: int, frame: Frame): (st': State)
    requires Rooted(st)
    ensures st'.recs.Keys == st.recs.Keys
  {
    if sid !in st.bySub then st
    else
      var r := st.bySub[sid];
      if seqNo > 0 && seqNo != st.recs[r].seqNo + 1 then Resubscribe(st, conn, r)
      else
        var s := if seqNo > 0 then st.recs[r].(seqNo := seqNo) else st.recs[r];
        Process(WithRec(st, r, s), conn, r, frame)
  }

  function EndSnapshot(st: State, conn: int, r: SubRef, count: int, cursor: Cursor): (st': State)
    requires r in st.recs
    ensures st'.recs.Keys == st.recs.Keys
  {
    var s := st.recs[r];
    if !s.staging || |s.staged| != count then
      Resubscribe(WithRec(st, r, s.(staging := false, staged := [], cursor := 0)), conn, r)
    else
      Deliver(WithRec(st, r, SnapshotRec(s, cursor)), r, Snapshot(s.staged))
  }

  function SnapshotRec(s: Sub, cursor: Cursor): Sub {
    s.(staging := false, staged := [], cursor := cursor, retries := 0, orders := Some(Upsert(map[], s.staged)))
  }

  function UnitRec(s: Sub, changed: seq<Order>, removed: seq<int>, nextCursor: Cursor): Sub {
    s.(cursor := nextCursor, retries := 0,
       orders := if s.orders.Some? then Some(ApplyUnit(s.orders.value, changed, removed)) else None)
  }

  function BecomeReady(st: State, r: SubRef): (st': State)
    requires r in st.recs
    ensures st'.recs.Keys == st.recs.Keys
  {
    var s := st.recs[r];
    if s.ready then WithRec(st, r, s.(retries := 0))
    else Deliver(WithRec(st, r, s.(retries := 0, ready := true)), r, Ready)
  }

  function Process(st: State, conn: int, r: SubRef, frame: Frame): (st': State)
    requires r in st.recs
    ensures st'.recs.Keys == st.recs.Keys
  {
    var s := st.recs[r];
    match frame
    case SnapshotBegin => WithRec(st, r, s.(staging := true, staged := []))
    case SnapshotPage(orders) => if s.staging then WithRec(st, r, s.(staged := s.staged + orders)) else st
    case SnapshotEnd(count, cursor) => EndSnapshot(st, conn, r, count, cursor)
    case UnitFrame(changed, removed, nextCursor) =>
      Deliver(WithRec(st, r, UnitRec(s, changed, removed, nextCursor)), r, Unit(changed, removed))
    case Covered(cursor) => WithRec(st, r, s.(cursor := cursor, retries := 0))
    case ReadyFrame => BecomeReady(st, r)
    case ResyncRequired => WithRec(st, r, s.(staging := false, staged := []))
    case Unavailable(reason, ids) =>
      Deliver(WithRec(st, r, s.(stale := true, staleReason := reason, staleOrderIds := ids)), r,
        Stale(true, reason, ids))
    case Available => Deliver(WithRec(st, r, FreshRec(s)), r, Stale(false, 0, []))
    case SubscribeExpiring =>
      st.(tasks := if st.sess.Some? then st.tasks + {RefreshTask(conn, r, s.sub)} else st.tasks)
    case Unsubscribed(_) => ServerEnded(st, conn, r)
    case _ => st
  }

  function SocketClosed(st: State, conn: int, code: int, stable: bool, order: seq<SubRef>): (st': State)
    requires forall i :: 0 <= i < |order| ==> order[i] in st.recs
    ensures st'.recs.Keys == st.recs.Keys
  {
    if st.conn != Some(conn) then st
    else
      var st1 := Detach(st);
      var st2 := if stable then st1.(reconnectAttempt := 0) else st1;
      if st2.subs == map[] then st2
      else if code == 4400 || code == 4403 then TerminateAll(st2, ConnectionClosed(code), order)
      else NotifyAllDisconnected(ScheduleReconnect(st2), order)
  }
}
