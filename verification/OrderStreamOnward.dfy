/**
 What no section ever takes back: a closed consumer's log stays as it is for
 good, and a subscription's live view and position
 change only where data is processed.
 */
module OrderStreamOnward {
  import opened Basics
  import opened OrderStreamModel
  import opened OrderStreamConsumers
  import opened OrderStreamSteps

  /** A consumer later on. */
  ghost predicate Ahead(k: Consumer, k': Consumer) {
    && k'.owner == k.owner
    && (k.closed ==> k'.closed && k'.log == k.log)
    && (k.chClosed ==> k'.chClosed)
  }

  /**
   A record that processed no data: same view, the position kept or given up, the server subscription kept or
   dropped.
   */
  predicate Quiet(s: Sub, s': Sub) {
    && s'.account == s.account
    && s'.orders == s.orders
    && (s'.cursor == s.cursor || s'.cursor == 0)
    && (|| s'.sub == 0
        || (&& s'.sub == s.sub && s'.seqNo == s.seqNo && s'.staging == s.staging && s'.staged == s.staged
            && s'.ready == s.ready && s'.stale == s.stale && s'.staleReason == s.staleReason
            && s'.staleOrderIds == s.staleOrderIds))
  }

  ghost predicate ConsumersOnward(consumers: map<ConsumerRef, Consumer>, consumers': map<ConsumerRef, Consumer>) {
    forall c :: c in consumers ==> c in consumers' && Ahead(consumers[c], consumers'[c])
  }

  ghost predicate RecsQuiet(recs: map<SubRef, Sub>, recs': map<SubRef, Sub>) {
    forall r :: r in recs ==> r in recs' && Quiet(recs[r], recs'[r])
  }

  /** What every section keeps, data frames and joins included. */
  ghost predicate Moved(st: State, st': State) {
    st'.maxQueue == st.maxQueue && ConsumersOnward(st.consumers, st'.consumers)
  }

  ghost predicate Onward(st: State, st': State) {
    && st'.recs.Keys == st.recs.Keys
    && Moved(st, st')
    && RecsQuiet(st.recs, st'.recs)
  }

  lemma OnwardTrans(a: State, b: State, c: State)
    requires Onward(a, b) && Onward(b, c)
    ensures Onward(a, c)
  {
  }

  lemma TeardownOnward(st: State, r: SubRef)
    requires r in st.recs
    ensures Onward(st, Teardown(st, r))
  {
    if Current(st, r) {
      var st1 := TeardownOne(st, r);
      assert Onward(st, st1);
      if st1.subs == map[] { assert Onward(st1, Shutdown(st1)); OnwardTrans(st, st1, Shutdown(st1)); }
    }
  }

  lemma OfferOnward(st: State, r: SubRef, part: set<ConsumerRef>, event: StreamEvent)
    requires r in st.recs
    ensures Onward(st, Offer(st, r, part, event))
  {
    var st1 := OfferOnly(st, r, part, event);
    assert Onward(st, st1);
    if Offer(st, r, part, event) != st1 {
      TeardownOnward(st1, r);
      OnwardTrans(st, st1, Teardown(st1, r));
    }
  }

  lemma EditOnward(st: State, r: SubRef, s: Sub)
    requires r in st.recs && Quiet(st.recs[r], s)
    ensures Onward(st, WithRec(st, r, s))
  {
  }

  lemma EditOfferOnward(st: State, r: SubRef, s: Sub, event: StreamEvent)
    requires r in st.recs && Quiet(st.recs[r], s)
    ensures Onward(st, Deliver(WithRec(st, r, s), r, event))
  {
    EditOnward(st, r, s);
    OfferOnward(WithRec(st, r, s), r, s.consumers, event);
    OnwardTrans(st, WithRec(st, r, s), Deliver(WithRec(st, r, s), r, event));
  }

  lemma FinishOnward(st: State, r: SubRef, err: Option<Failure>)
    requires r in st.recs
    ensures Onward(st, FinishConsumers(st, r, err))
  {
  }

  lemma TerminateOnward(st: State, r: SubRef, failure: Failure)
    requires r in st.recs
    ensures Onward(st, Terminate(st, r, failure))
  {
    if Current(st, r) {
      var st1 := Report(st, r, failure);
      OfferOnward(st, r, st.recs[r].consumers, StreamError(failure));
      var st2 := Farewell(st, r, failure);
      if st1.recs[r].state != SubDisconnected {
        EditOfferOnward(st1, r, st1.recs[r].(state := SubDisconnected), Disconnected);
        OnwardTrans(st, st1, st2);
      }
      var st3 := FinishConsumers(st2, r, Some(failure));
      FinishOnward(st2, r, Some(failure));
      OnwardTrans(st, st2, st3);
      TeardownOnward(st3, r);
      OnwardTrans(st, st3, Teardown(st3, r));
    }
  }

  lemma {:induction false} TerminateAllOnward(st: State, failure: Failure, order: seq<SubRef>)
    requires forall i :: 0 <= i < |order| ==> order[i] in st.recs
    ensures Onward(st, TerminateAll(st, failure, order))
    decreases |order|
  {
    if order != [] {
      var st1 := TerminateAll(st, failure, Init(order));
      TerminateAllOnward(st, failure, Init(order));
      TerminateOnward(st1, Last(order), failure);
      OnwardTrans(st, st1, Terminate(st1, Last(order), failure));
    }
  }

  lemma {:induction false} ReportAllOnward(st: State, failure: Failure, order: seq<SubRef>)
    requires forall i :: 0 <= i < |order| ==> order[i] in st.recs
    ensures Onward(st, ReportAll(st, failure, order))
    decreases |order|
  {
    if order != [] {
      var st1 := ReportAll(st, failure, Init(order));
      ReportAllOnward(st, failure, Init(order));
      OfferOnward(st1, Last(order), st1.recs[Last(order)].consumers, StreamError(failure));
      OnwardTrans(st, st1, Report(st1, Last(order), failure));
    }
  }

  lemma {:induction false} SubscribeAllOnward(st: State, conn: int, order: seq<SubRef>)
    ensures SubscribeAll(st, conn, order).consumers == st.consumers
      && SubscribeAll(st, conn, order).maxQueue == st.maxQueue
    decreases |order|
  {
    if order != [] { SubscribeAllOnward(st, conn, Init(order)); }
  }

  lemma NotifyOnward(st: State, r: SubRef)
    requires r in st.recs
    ensures Onward(st, NotifyDisconnected(st, r))
    ensures Onward(st, NotifyConnected(st, r))
  {
    var s := st.recs[r];
    if s.state == SubConnected { EditOfferOnward(st, r, s.(state := SubDisconnected), Disconnected); }
    else { EditOfferOnward(st, r, s.(state := SubConnected), Connected); }
  }

  /**
   Whatever came before, telling consumers that a subscription is no longer stale does no more than make its
   record fresh.
   */
  lemma FreshOnward(a: State, b: State, r: SubRef)
    requires r in a.recs && Onward(a, b)
    requires !a.recs[r].stale ==> FreshRec(a.recs[r]) == a.recs[r]
    ensures Onward(WithRec(a, r, FreshRec(a.recs[r])), NotifyFresh(b, r))
  {
    var a', s := WithRec(a, r, FreshRec(a.recs[r])), b.recs[r];
    if s.stale {
      var b' := WithRec(b, r, FreshRec(s));
      assert Onward(a', b');
      OfferOnward(b', r, s.consumers, Stale(false, 0, []));
      OnwardTrans(a', b', NotifyFresh(b, r));
    } else {
      assert Onward(a', b);
    }
  }

  lemma {:induction false} NotifyAllOnward(st: State, order: seq<SubRef>)
    requires forall i :: 0 <= i < |order| ==> order[i] in st.recs
    ensures Onward(st, NotifyAllDisconnected(st, order))
    decreases |order|
  {
    if order != [] {
      var st1 := NotifyAllDisconnected(st, Init(order));
      NotifyAllOnward(st, Init(order));
      NotifyOnward(st1, Last(order));
      OnwardTrans(st, st1, NotifyDisconnected(st1, Last(order)));
    }
  }

  lemma RetryOnward(st: State, conn: int, r: SubRef)
    requires r in st.recs
    ensures Onward(st, RetrySubscribe(st, conn, r))
  {
  }

  lemma ResubscribeOnward(st: State, conn: int, r: SubRef)
    requires r in st.recs
    ensures Onward(st, Resubscribe(st, conn, r))
  {
    hide NotifyDisconnected;
    var st1 := DropServerSub(st, r);
    var st2 := Redial(DropServerSub(st, r), conn, r);
    assert Onward(st, st1);
    RetryOnward(st1, conn, r);
    EditOnward(st1, r, st1.recs[r].(retries := 1));
    assert Onward(st1, st2);
    OnwardTrans(st, st1, st2);
    NotifyOnward(st2, r);
    OnwardTrans(st, st2, Resubscribe(st, conn, r));
  }

  lemma ServerEndedOnward(st: State, conn: int, r: SubRef)
    requires r in st.recs
    ensures Onward(st, ServerEnded(st, conn, r))
  {
    var st1 := WithRec(st, r, st.recs[r].(sub := 0)).(bySub := st.bySub - {st.recs[r].sub});
    assert Onward(st, st1);
    ResubscribeOnward(st1, conn, r);
    OnwardTrans(st, st1, ServerEnded(st, conn, r));
  }

  lemma {:induction false} OfferEachOnward(st: State, r: SubRef, c: ConsumerRef, events: seq<StreamEvent>)
    requires r in st.recs
    ensures Onward(st, OfferEach(st, r, c, events))
    decreases |events|
  {
    if events != [] {
      var st1 := OfferEach(st, r, c, Init(events));
      OfferEachOnward(st, r, c, Init(events));
      OfferOnward(st1, r, {c}, Last(events));
      OnwardTrans(st, st1, OfferEach(st, r, c, events));
    }
  }

  lemma SubscribeErrorOnward(st: State, conn: int, r: SubRef, code: ErrorCode)
    requires r in st.recs
    ensures Onward(st, SubscribeError(st, conn, r, code))
  {
    if code == CursorInvalid { EditOnward(st, r, st.recs[r].(cursor := 0)); }
    else { TerminateOnward(st, r, RequestFailed(code)); }
  }

  lemma SubscriptionErrorOnward(st: State, conn: int, r: SubRef, serverSub: ServerSub, code: ErrorCode)
    requires r in st.recs
    ensures Onward(st, SubscriptionError(st, conn, r, serverSub, code))
  {
    ServerEndedOnward(st, conn, r);
    OfferOnward(st, r, st.recs[r].consumers, StreamError(RequestFailed(code)));
  }

  lemma RequestErrorOnward(st: State, conn: int, serverSub: ServerSub, id: RequestId, code: ErrorCode,
      order: seq<SubRef>)
    requires Rooted(st)
    requires forall i :: 0 <= i < |order| ==> order[i] in st.recs
    ensures Onward(st, OnRequestError(st, conn, serverSub, id, code, order))
  {
    var st' := OnRequestError(st, conn, serverSub, id, code, order);
    if id == 0 {
      if serverSub in st.bySub { SubscriptionErrorOnward(st, conn, st.bySub[serverSub], serverSub, code); }
      else { ReportAllOnward(st, RequestFailed(code), order); }
    } else if id in st.unsubscribing || id !in st.pending {
      SameOnward(st, st');
    } else {
      var st1 := st.(pending := st.pending - {id});
      SameOnward(st, st1);
      if st.pending[id].kind == RequestSubscribe { SubscribeErrorOnward(st1, conn, st.pending[id].s, code); }
      else { SubscriptionErrorOnward(st1, conn, st.pending[id].s, serverSub, code); }
      OnwardTrans(st, st1, st');
    }
  }

  lemma ConnectOnward(st: State, sess: int, result: TokenResult, order: seq<SubRef>)
    requires forall i :: 0 <= i < |order| ==> order[i] in st.recs
    ensures Onward(st, ConnectReturned(st, sess, result, order))
  {
    var st1 := st.(tasks := st.tasks - {ConnectTask(sess)}, connecting := false);
    if st.sess == Some(sess) {
      match result
      case Refused => TerminateAllOnward(st1, TokenRefused, order);
      case Failed => ReportAllOnward(st1, Transient, order);
      case Token =>
        SubscribeAllOnward(st1.(conn := Some(st.connSeq), connSeq := st.connSeq + 1, authSent := true), st.connSeq,
          order);
    }
  }

  lemma ReauthOnward(st: State, conn: int, result: TokenResult, order: seq<SubRef>)
    requires forall i :: 0 <= i < |order| ==> order[i] in st.recs
    ensures Onward(st, ReauthReturned(st, conn, result, order))
  {
    var st1 := st.(tasks := st.tasks - {ReauthTask(conn)});
    if st.conn == Some(conn) {
      match result
      case Refused => TerminateAllOnward(st1, TokenRefused, order);
      case Failed => ReportAllOnward(st1, Transient, order);
      case Token =>
    }
  }

  lemma ReportRetryOnward(st: State, conn: int, r: SubRef, failure: Failure)
    requires r in st.recs
    ensures Onward(st, Report(st, r, failure))
    ensures Onward(st, RetrySubscribe(Report(st, r, failure), conn, r))
  {
    var st1 := Report(st, r, failure);
    OfferOnward(st, r, st.recs[r].consumers, StreamError(failure));
    RetryOnward(st1, conn, r);
    OnwardTrans(st, st1, RetrySubscribe(st1, conn, r));
  }

  lemma SubscribeTokenOnward(st: State, conn: int, r: SubRef, id: RequestId, result: TokenResult)
    requires r in st.recs
    ensures Onward(st, SubscribeTokenReturned(st, conn, r, id, result))
  {
    hide Onward, Terminate, Report, RetrySubscribe;
    var st0 := st.(tasks := st.tasks - {SubscribeTask(conn, r, id)});
    SameOnward(st, st0);
    if id in st.pending && st.pending[id].s == r {
      var st1 := st.(tasks := st.tasks - {SubscribeTask(conn, r, id)}, pending := st.pending - {id});
      SameOnward(st, st1);
      if result == Refused {
        TerminateOnward(st1, r, TokenRefused);
        OnwardTrans(st, st1, Terminate(st1, r, TokenRefused));
      } else if result == Failed {
        ReportRetryOnward(st1, conn, r, Transient);
        OnwardTrans(st, st1, RetrySubscribe(Report(st1, r, Transient), conn, r));
      } else if st.conn == Some(conn) {
        var s := SubscribeTokenReturned(st, conn, r, id, Token).recs[r];
        EditOnward(st, r, s);
        SameOnward(WithRec(st, r, s), SubscribeTokenReturned(st, conn, r, id, Token));
        OnwardTrans(st, WithRec(st, r, s), SubscribeTokenReturned(st, conn, r, id, Token));
      }
    }
  }

  lemma RefreshOnward(st: State, conn: int, r: SubRef, serverSub: ServerSub, result: TokenResult)
    requires r in st.recs
    ensures Onward(st, RefreshReturned(st, conn, r, serverSub, result))
  {
    var st1 := st.(tasks := st.tasks - {RefreshTask(conn, r, serverSub)});
    var failure := if result == Refused then TokenRefused else Transient;
    SameOnward(st, st1);
    if st.conn != Some(conn) || st.recs[r].sub != serverSub || !Current(st, r) || result == Token {
      SameOnward(st, RefreshReturned(st, conn, r, serverSub, result));
    } else {
      OfferOnward(st1, r, st1.recs[r].consumers, StreamError(failure));
      OnwardTrans(st, st1, Report(st1, r, failure));
    }
  }

  lemma AckOnward(st: State, r: SubRef, timer: Timer)
    requires r in st.recs
    ensures Onward(st, AckFired(st, r, timer))
  {
    if st.recs[r].ackTimer == Some(timer) {
      var st1 := WithRec(st, r, st.recs[r].(ackTimer := None));
      EditOnward(st, r, st1.recs[r]);
      ExpireOnward(st1, timer.conn, r, timer.request);
      OnwardTrans(st, st1, AckFired(st, r, timer));
    }
  }

  lemma ExpireOnward(st: State, conn: int, r: SubRef, id: RequestId)
    requires r in st.recs
    ensures Onward(st, ExpireSubscribe(st, conn, r, id))
  {
    if id in st.pending && st.pending[id].s == r {
      if !st.recs[r].confirmed { TerminateOnward(st, r, SubscribeTimeout); }
      else { ReportRetryOnward(st.(pending := st.pending - {id}), conn, r, SubscribeTimeout); }
    }
  }

  lemma RemoveOnward(st: State, r: SubRef, c: ConsumerRef)
    requires r in st.recs
    ensures Onward(st, Remove(st, r, c))
  {
    if c in st.recs[r].consumers {
      var st1 := Removed(st, r, c);
      assert Onward(st, st1);
      TeardownOnward(st1, r);
      OnwardTrans(st, st1, Teardown(st1, r));
    }
  }

  lemma DetachOnward(st: State)
    ensures Onward(st, Detach(st))
  {
  }

  lemma ClosedOnward(st: State, conn: int, code: int, stable: bool, order: seq<SubRef>)
    requires forall i :: 0 <= i < |order| ==> order[i] in st.recs
    ensures Onward(st, SocketClosed(st, conn, code, stable, order))
  {
    hide Onward, Detach, TerminateAll, NotifyAllDisconnected;
    SameOnward(st, st);
    if st.conn == Some(conn) {
      var st2 := if stable then Detach(st).(reconnectAttempt := 0) else Detach(st);
      DetachOnward(st);
      SameOnward(Detach(st), st2);
      OnwardTrans(st, Detach(st), st2);
      if st2.subs != map[] {
        if code == 4400 || code == 4403 {
          TerminateAllOnward(st2, ConnectionClosed(code), order);
        } else {
          SameOnward(st2, ScheduleReconnect(st2));
          NotifyAllOnward(ScheduleReconnect(st2), order);
          OnwardTrans(st2, ScheduleReconnect(st2), SocketClosed(st, conn, code, stable, order));
        }
        OnwardTrans(st, st2, SocketClosed(st, conn, code, stable, order));
      }
    }
  }

  lemma SameOnward(st: State, st': State)
    requires st'.recs == st.recs && st'.consumers == st.consumers && st'.maxQueue == st.maxQueue
    ensures Onward(st, st')
  {
  }

  lemma OneAhead(consumers: map<ConsumerRef, Consumer>, c: ConsumerRef, k: Consumer)
    requires c in consumers && Ahead(consumers[c], k)
    ensures ConsumersOnward(consumers, consumers[c := k])
  {
  }

  lemma ConsumerOnward(st: State, c: ConsumerRef)
    ensures Onward(st, CloseCall(st, c)) && Onward(st, ReadOne(st, c))
  {
    hide Onward, ConsumersOnward;
    SameOnward(st, st);
    if c in st.consumers {
      OneAhead(st.consumers, c, st.consumers[c].(closed := true));
      ConsumersMove(st, CloseCall(st, c));
      OneAhead(st.consumers, c, st.consumers[c].(read := st.consumers[c].read + 1));
      if ReadOne(st, c) != st { ConsumersMove(st, ReadOne(st, c)); }
    }
  }

  lemma ConsumersMove(st: State, st': State)
    requires st'.recs == st.recs && st'.maxQueue == st.maxQueue && ConsumersOnward(st.consumers, st'.consumers)
    ensures Onward(st, st')
  {
    hide ConsumersOnward;
  }

  lemma RetryFiredOnward(st: State, r: SubRef, timer: Timer)
    requires r in st.recs
    ensures Onward(st, RetryFired(st, r, timer))
  {
    var st1 := WithRec(st, r, st.recs[r].(retryTimer := None));
    EditOnward(st, r, st1.recs[r]);
    if st.recs[r].retryTimer == Some(timer) {
      SameOnward(st1, RetryFired(st, r, timer));
      OnwardTrans(st, st1, RetryFired(st, r, timer));
    } else {
      SameOnward(st, st);
    }
  }

  lemma OpenOnward(st: State)
    ensures Onward(st, Open(st)) && Onward(st, st)
  {
    SameOnward(st, Open(st));
  }

  lemma ReconnectOnward(st: State, timer: int)
    ensures Onward(st, ReconnectFired(st, timer))
  {
    var st1 := st.(reconnectTimer := None);
    SameOnward(st, st1);
    OpenOnward(st);
    OpenOnward(st1);
    hide Onward, Open;
    OnwardTrans(st, st1, Open(st1));
  }

  /** Every section but joining and frames moves consumers only forward and processes no data. */
  lemma StepOnward(st: State, e: Event)
    requires Enabled(st, e) && Rooted(st) && !e.SubscribeEvent? && !e.FrameEvent?
    ensures Onward(st, Step(st, e))
  {
    hide Onward, CloseCall, Remove, ReadOne, ConnectReturned, ReauthReturned, SubscribeTokenReturned, RefreshReturned,
      ReconnectFired, RetryFired, AckFired, SocketClosed;
    match e
    case CloseEvent(c) => ConsumerOnward(st, c);
    case RemoveEvent(r, c) => RemoveOnward(st, r, c);
    case ReadEvent(c) => ConsumerOnward(st, c);
    case ConnectEvent(sess, result, order) => ConnectOnward(st, sess, result, order);
    case ReauthEvent(conn, result, order) => ReauthOnward(st, conn, result, order);
    case SubscribeTokenEvent(conn, r, id, result) => SubscribeTokenOnward(st, conn, r, id, result);
    case RefreshTokenEvent(conn, r, serverSub, result) => RefreshOnward(st, conn, r, serverSub, result);
    case ReconnectEvent(timer) => ReconnectOnward(st, timer);
    case RetryEvent(r, timer) => RetryFiredOnward(st, r, timer);
    case AckEvent(r, timer) => AckOnward(st, r, timer);
    case ClosedEvent(conn, code, stable, order) => ClosedOnward(st, conn, code, stable, order);
  }
}
