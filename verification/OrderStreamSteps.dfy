/**
 One step of the private order stream, whatever wakes it, and the proof that
 every step keeps the invariant.
 */
module OrderStreamSteps {
  import opened Basics
  import opened OrderStreamModel
  import opened OrderStreamInvariant
  import opened OrderStreamConsumers
  import opened OrderStreamHandlers
  import opened OrderStreamFrames
  import opened OrderStreamControl

  /** Everything that can take the lock. `order` is the order a loop over the subscriptions visits them. */
  datatype Event =
    | SubscribeEvent(account: Account, c: ConsumerRef, r: SubRef)
    | CloseEvent(c: ConsumerRef)
    | RemoveEvent(r: SubRef, c: ConsumerRef)
    | ReadEvent(c: ConsumerRef)
    | ConnectEvent(sess: int, result: TokenResult, order: seq<SubRef>)
    | ReauthEvent(conn: int, result: TokenResult, order: seq<SubRef>)
    | SubscribeTokenEvent(conn: int, r: SubRef, id: RequestId, result: TokenResult)
    | RefreshTokenEvent(conn: int, r: SubRef, serverSub: ServerSub, result: TokenResult)
    | ReconnectEvent(timerId: int)
    | RetryEvent(r: SubRef, timer: Timer)
    | AckEvent(r: SubRef, timer: Timer)
    | FrameEvent(conn: int, msg: Incoming, order: seq<SubRef>)
    | ClosedEvent(conn: int, code: int, stable: bool, order: seq<SubRef>)

  /** New objects are new, goroutines return once, and a loop over the subscriptions visits each once. */
  ghost predicate Enabled(st: State, e: Event) {
    match e
    case SubscribeEvent(account, c, r) => c !in st.consumers && r !in st.recs
    case RemoveEvent(r, c) => r in st.recs
    case ConnectEvent(sess, _, order) => ConnectTask(sess) in st.tasks && VisitsAll(st, order)
    case ReauthEvent(conn, _, order) => ReauthTask(conn) in st.tasks && VisitsAll(st, order)
    case SubscribeTokenEvent(conn, r, id, _) => SubscribeTask(conn, r, id) in st.tasks && r in st.recs
    case RefreshTokenEvent(conn, r, sid, _) => RefreshTask(conn, r, sid) in st.tasks && r in st.recs
    case RetryEvent(r, _) => r in st.recs
    case AckEvent(r, _) => r in st.recs
    case FrameEvent(_, _, order) => VisitsAll(st, order)
    case ClosedEvent(_, _, _, order) => VisitsAll(st, order)
    case _ => true
  }

  ghost predicate VisitsAll(st: State, order: seq<SubRef>) {
    && Enumerates(order, st.subs.Values)
    && (forall i :: 0 <= i < |order| ==> order[i] in st.recs)
  }

  ghost predicate ServerKeeps(st: State, e: Event) {
    e.FrameEvent? && e.msg.Message? && st.conn == Some(e.conn) ==> ControlKept(st, e.msg)
  }

  lemma CoreRooted(st: State)
    requires Core(st)
    ensures Rooted(st)
  {
  }

  function Step(st: State, e: Event): State
    requires Enabled(st, e) && Rooted(st)
  {
    match e
    case SubscribeEvent(account, c, r) => SubscribeCall(st, account, c, r)
    case CloseEvent(c) => CloseCall(st, c)
    case RemoveEvent(r, c) => Remove(st, r, c)
    case ReadEvent(c) => ReadOne(st, c)
    case ConnectEvent(sess, result, order) => ConnectReturned(st, sess, result, order)
    case ReauthEvent(conn, result, order) => ReauthReturned(st, conn, result, order)
    case SubscribeTokenEvent(conn, r, id, result) => SubscribeTokenReturned(st, conn, r, id, result)
    case RefreshTokenEvent(conn, r, serverSub, result) => RefreshReturned(st, conn, r, serverSub, result)
    case ReconnectEvent(timer) => ReconnectFired(st, timer)
    case RetryEvent(r, timer) => RetryFired(st, r, timer)
    case AckEvent(r, timer) => AckFired(st, r, timer)
    case FrameEvent(conn, msg, order) => FrameArrived(st, conn, msg, order)
    case ClosedEvent(conn, code, stable, order) => SocketClosed(st, conn, code, stable, order)
  }

  /** Every section keeps the invariant, whatever wakes it and in whatever order loops run. */
  lemma StepKeeps(st: State, e: Event)
    requires Inv(st) && Enabled(st, e) && Rooted(st) && ServerKeeps(st, e)
    ensures Inv(Step(st, e))
  {
    match e
    case SubscribeEvent(account, c, r) => SubscribeKeeps(st, account, c, r);
    case CloseEvent(c) => CloseKeeps(st, c);
    case RemoveEvent(r, c) => RemoveKeeps(st, r, c);
    case ReadEvent(c) => ReadKeeps(st, c);
    case ConnectEvent(sess, result, order) => ConnectKeeps(st, sess, result, order);
    case ReauthEvent(conn, result, order) => ReauthKeeps(st, conn, result, order);
    case SubscribeTokenEvent(conn, r, id, result) => SubscribeTokenKeeps(st, conn, r, id, result);
    case RefreshTokenEvent(conn, r, serverSub, result) => RefreshKeeps(st, conn, r, serverSub, result);
    case ReconnectEvent(timer) => ReconnectKeeps(st, timer);
    case RetryEvent(r, timer) => RetryKeeps(st, r, timer);
    case AckEvent(r, timer) => AckKeeps(st, r, timer);
    case FrameEvent(conn, msg, order) => FrameKeeps(st, conn, msg, order);
    case ClosedEvent(conn, code, stable, order) => ClosedKeeps(st, conn, code, stable, order);
  }

  lemma InitialInv(maxQueue: int)
    requires maxQueue > 0
    ensures Inv(InitialState(maxQueue))
  {
  }
}
