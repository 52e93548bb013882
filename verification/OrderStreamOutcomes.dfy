/**
 What each step tells the consumers of a subscription and when it ends it
 (realtime/private_orders.go): a table over the steps, and the proof that every
 step of every run does exactly what the table says.
 */
module OrderStreamOutcomes {
  import opened Basics
  import opened OrderStreamModel
  import opened OrderStreamInvariant
  import opened OrderStreamConsumers
  import opened OrderStreamSteps
  import opened OrderStreamOwned
  import opened OrderStreamScripts
  import opened OrderStreamView

  // ---------- The table ----------

  function Erring(failure: Failure): Script {
    Telling([StreamError(failure)])
  }

  /** The server subscription is given up: consumers that believe in it hear that it is gone. */
  function Dropping(s: Sub): Script {
    Telling(Maybe(s.sub != 0, Disconnected))
  }

  predicate AwaitsToken(st: State, r: SubRef, id: RequestId) {
    id in st.pending && st.pending[id].s == r
  }

  /** A refused token ends the subscription it was for; any other failure to get one is only told. */
  function TokenScript(s: Sub, result: TokenResult): Script {
    match result
    case Refused => Ending(s, TokenRefused)
    case Failed => Erring(Transient)
    case Token => Nothing
  }

  /** A frame of the server subscription that is next in its order. */
  function DataScript(s: Sub, frame: Frame): Script {
    match frame
    case SnapshotEnd(count, _) =>
      if s.staging && |s.staged| == count then Telling([Snapshot(s.staged)]) else Dropping(s)
    case UnitFrame(changed, removed, _) => Telling([Unit(changed, removed)])
    case ReadyFrame => Telling(Maybe(!s.ready, Ready))
    case Unavailable(reason, ids) => Telling([Stale(true, reason, ids)])
    case Available => Telling([Stale(false, 0, [])])
    case Unsubscribed(_) => Dropping(s)
    case _ => Nothing
  }

  /** A frame that names the server subscription of `s`; one out of order gives it up. */
  function SubScript(s: Sub, seqNo: int, frame: Frame): Script {
    if seqNo > 0 && seqNo != s.seqNo + 1 then Dropping(s) else DataScript(s, frame)
  }

  /** An error that answers request `id`, or none (0). */
  function ErrorScript(st: State, r: SubRef, sid: ServerSub, id: RequestId, code: ErrorCode): Script
    requires r in st.recs
  {
    var s := st.recs[r];
    if id == 0 then
      if sid !in st.bySub then Erring(RequestFailed(code))
      else if st.bySub[sid] != r then Nothing
      else if code == SubscriptionUnknown then Dropping(s) else Erring(RequestFailed(code))
    else if id in st.unsubscribing || !AwaitsToken(st, r, id) then Nothing
    else if st.pending[id].kind == RequestSubscribe then
      if code == CursorInvalid then Nothing else Ending(s, RequestFailed(code))
    else if code == SubscriptionUnknown && s.sub == sid then Dropping(s)
    else Erring(RequestFailed(code))
  }

  function MessageScript(st: State, r: SubRef, sid: ServerSub, seqNo: int, frame: Frame): Script
    requires r in st.recs
  {
    var s := st.recs[r];
    match frame
    case Subscribed(id) =>
      if Awaits(st, id, r) then
        Telling(Maybe(s.state != SubConnected, Connected) + Maybe(s.stale, Stale(false, 0, [])))
      else Nothing
    case SubscribeRefreshed(_) => Nothing
    case TokenExpiring => Nothing
    case Error(id, code) => ErrorScript(st, r, sid, id, code)
    case Unsubscribed(id) =>
      if id !in st.unsubscribing && sid in st.bySub && st.bySub[sid] == r then SubScript(s, seqNo, frame) else Nothing
    case _ => if sid in st.bySub && st.bySub[sid] == r then SubScript(s, seqNo, frame) else Nothing
  }

  /** What a step tells the consumers that subscription `r` has, and whether it ends it. */
  function ScriptOf(st: State, e: Event, r: SubRef): Script
    requires r in st.recs
  {
    var s := st.recs[r];
    match e
    case ConnectEvent(sess, result, _) => if st.sess == Some(sess) then TokenScript(s, result) else Nothing
    case ReauthEvent(conn, result, _) => if st.conn == Some(conn) then TokenScript(s, result) else Nothing
    case SubscribeTokenEvent(_, x, id, result) =>
      if x == r && AwaitsToken(st, r, id) then TokenScript(s, result) else Nothing
    case RefreshTokenEvent(conn, x, sid, result) =>
      if x == r && st.conn == Some(conn) && s.sub == sid && result != Token
      then Erring(if result == Refused then TokenRefused else Transient) else Nothing
    case AckEvent(x, timer) =>
      if x == r && s.ackTimer == Some(timer) && AwaitsToken(st, r, timer.request)
      then if s.confirmed then Erring(SubscribeTimeout) else Ending(s, SubscribeTimeout)
      else Nothing
    case FrameEvent(conn, msg, _) =>
      if st.conn != Some(conn) then Nothing
      else (match msg
        case Unreadable => Erring(BadFrame)
        case Message(sid, seqNo, frame) => MessageScript(st, r, sid, seqNo, frame))
    case ClosedEvent(conn, code, _, _) =>
      if st.conn != Some(conn) then Nothing
      else if code == 4400 || code == 4403 then Ending(s, ConnectionClosed(code)) else Dropping(s)
    case _ => Nothing
  }

  // ---------- Loops over the subscriptions ----------

  ghost predicate Distinct(order: seq<SubRef>) {
    forall i, j :: 0 <= i < j < |order| ==> order[i] != order[j]
  }

  /** Every subscription has a consumer, and its parts belong together. */
  ghost predicate AllPeopled(st: State) {
    Sound(st) && forall q :: q in st.recs ==> Peopled(st, q)
  }

  lemma NothingKeeps(st: State, st': State, q: SubRef)
    requires AllPeopled(st) && Current(st, q) && Told(st, st', q, Nothing)
    ensures Current(st', q) && st'.recs[q].consumers == st.recs[q].consumers
  {
    forall c | c in st.recs[q].consumers ensures c in st'.recs[q].consumers {
      assert !st.consumers[c].chClosed;
      OneEvent(st.maxQueue, st.consumers[c], Connected);
    }
  }

  lemma FarewellKeepsState(st: State, r: SubRef, failure: Failure, q: SubRef)
    requires r in st.recs && q in st.recs && q != r
    ensures Farewell(st, r, failure).recs[q].state == st.recs[q].state
  {
    hide Deliver;
    DeliverKeepsState(st, r, StreamError(failure), q);
    var st1 := WithState(Report(st, r, failure), r, SubDisconnected);
    DeliverKeepsState(st1, r, Disconnected, q);
  }

  lemma TerminateKeepsState(st: State, r: SubRef, failure: Failure, q: SubRef)
    requires r in st.recs && q in st.recs && q != r
    ensures Terminate(st, r, failure).recs[q].state == st.recs[q].state
  {
    hide Farewell, Teardown;
    FarewellKeepsState(st, r, failure, q);
    TeardownKeepsState(FinishConsumers(Farewell(st, r, failure), r, Some(failure)), r, q);
  }

  lemma {:induction false} TerminateAllTold(st: State, failure: Failure, order: seq<SubRef>, q: SubRef)
    requires AllPeopled(st) && q in st.recs && Distinct(order)
    requires forall i :: 0 <= i < |order| ==> order[i] in st.recs && Current(st, order[i])
    ensures Told(st, TerminateAll(st, failure, order), q,
                 if q in order then Ending(st.recs[q], failure) else Nothing)
    ensures q !in order ==> TerminateAll(st, failure, order).recs[q].state == st.recs[q].state
    decreases |order|
  {
    hide Sound, Heard, Terminate;
    if order == [] {
      QuietTold(st, st, q);
    } else {
      var r, mid := Last(order), TerminateAll(st, failure, Init(order));
      assert r !in Init(order);
      TerminateAllTold(st, failure, Init(order), q);
      TerminateAllTold(st, failure, Init(order), r);
      NothingKeeps(st, mid, r);
      TerminateTold(mid, r, failure, q);
      var st' := TerminateAll(st, failure, order);
      assert q in order <==> q == r || q in Init(order);
      if q == r {
        QuietThenTold(st, mid, st', q, Ending(st.recs[q], failure));
      } else {
        ToldThenQuiet(st, mid, st', q, if q in order then Ending(st.recs[q], failure) else Nothing);
        TerminateKeepsState(mid, r, failure, q);
      }
    }
  }

  lemma {:induction false} ReportAllTold(st: State, failure: Failure, order: seq<SubRef>, q: SubRef)
    requires AllPeopled(st) && q in st.recs && Distinct(order)
    requires forall i :: 0 <= i < |order| ==> order[i] in st.recs
    ensures Told(st, ReportAll(st, failure, order), q, if q in order then Erring(failure) else Nothing)
    decreases |order|
  {
    hide Sound, Heard, Deliver;
    if order == [] {
      QuietTold(st, st, q);
    } else {
      var r, mid := Last(order), ReportAll(st, failure, Init(order));
      assert r !in Init(order);
      ReportAllTold(st, failure, Init(order), q);
      DeliverTold(mid, r, StreamError(failure), q);
      var st' := ReportAll(st, failure, order);
      assert q in order <==> q == r || q in Init(order);
      if q == r {
        QuietThenTold(st, mid, st', q, Erring(failure));
      } else {
        ToldThenQuiet(st, mid, st', q, if q in order then Erring(failure) else Nothing);
      }
    }
  }

  function Leaving(s: Sub): Script {
    Telling(Maybe(s.state == SubConnected, Disconnected))
  }

  lemma NotifyTold(st: State, r: SubRef, q: SubRef)
    requires Sound(st) && r in st.recs && q in st.recs && Peopled(st, q)
    ensures Told(st, NotifyDisconnected(st, r), q, For(q, r, Leaving(st.recs[r])))
    ensures q != r ==> NotifyDisconnected(st, r).recs[q].state == st.recs[q].state
  {
    hide Sound, Heard, Deliver;
    if st.recs[r].state == SubConnected {
      EditDeliverTold(st, r, st.recs[r].(state := SubDisconnected), Disconnected, q);
      DeliverKeepsState(WithState(st, r, SubDisconnected), r, Disconnected, q);
    } else {
      QuietTold(st, st, q);
    }
  }

  lemma {:induction false} NotifyAllTold(st: State, order: seq<SubRef>, q: SubRef)
    requires AllPeopled(st) && q in st.recs && Distinct(order)
    requires forall i :: 0 <= i < |order| ==> order[i] in st.recs
    ensures Told(st, NotifyAllDisconnected(st, order), q, if q in order then Leaving(st.recs[q]) else Nothing)
    ensures q !in order ==> NotifyAllDisconnected(st, order).recs[q].state == st.recs[q].state
    decreases |order|
  {
    hide Sound, Heard, NotifyDisconnected;
    if order == [] {
      QuietTold(st, st, q);
    } else {
      var r, mid := Last(order), NotifyAllDisconnected(st, Init(order));
      assert r !in Init(order);
      NotifyAllTold(st, Init(order), q);
      NotifyAllTold(st, Init(order), r);
      NotifyTold(mid, r, q);
      var st' := NotifyAllDisconnected(st, order);
      assert q in order <==> q == r || q in Init(order);
      if q == r {
        QuietThenTold(st, mid, st', q, Leaving(st.recs[q]));
      } else {
        ToldThenQuiet(st, mid, st', q, if q in order then Leaving(st.recs[q]) else Nothing);
      }
    }
  }

  lemma {:induction false} SubscribeAllCrowd(st: State, conn: int, order: seq<SubRef>)
    ensures SameCrowd(st, SubscribeAll(st, conn, order))
    decreases |order|
  {
    if order != [] { SubscribeAllCrowd(st, conn, Init(order)); }
  }

  lemma InvPeopled(st: State)
    requires Inv(st)
    ensures AllPeopled(st)
    ensures forall r :: Current(st, r) ==> Consistent(st.recs[r])
  {
    InvSound(st);
    hide Owned, Queued, Wired, Routed, Ticketed, Dialled, Sound, Served;
    forall r | Current(st, r) ensures st.recs[r].consumers != {} && Consistent(st.recs[r]) { assert Settled(st, r); }
  }

  lemma CrowdPeopled(st: State, st': State)
    requires AllPeopled(st) && SameCrowd(st, st')
    ensures AllPeopled(st')
  {
    CrowdSound(st, st');
    hide Sound;
  }

  // ---------- Goroutines, timers and the socket ----------

  lemma VisitedOnce(st: State, order: seq<SubRef>, q: SubRef)
    requires Sound(st) && VisitsAll(st, order) && q in st.recs
    ensures Distinct(order) && (Current(st, q) <==> q in order)
    ensures forall i :: 0 <= i < |order| ==> order[i] in st.recs && Current(st, order[i])
  {
  }

  /** Something quiet, then every subscription ends. */
  lemma AllEndTold(st: State, st1: State, failure: Failure, order: seq<SubRef>, q: SubRef)
    requires AllPeopled(st) && SameCrowd(st, st1) && VisitsAll(st, order) && Current(st, q)
    requires st1.recs[q].state == st.recs[q].state
    ensures (forall i :: 0 <= i < |order| ==> order[i] in st1.recs)
      && Told(st, TerminateAll(st1, failure, order), q, Ending(st.recs[q], failure))
  {
    VisitedOnce(st, order, q);
    CrowdPeopled(st, st1);
    QuietTold(st, st1, q);
    forall i | 0 <= i < |order| ensures order[i] in st1.recs && Current(st1, order[i]) {}
    hide Sound, Heard, TerminateAll;
    TerminateAllTold(st1, failure, order, q);
    QuietThenTold(st, st1, TerminateAll(st1, failure, order), q, Ending(st.recs[q], failure));
  }

  lemma AllHearTold(st: State, st1: State, st': State, failure: Failure, order: seq<SubRef>, q: SubRef)
    requires AllPeopled(st) && SameCrowd(st, st1) && VisitsAll(st, order) && Current(st, q)
    requires forall i :: 0 <= i < |order| ==> order[i] in st1.recs
    requires SameCrowd(ReportAll(st1, failure, order), st')
    ensures Told(st, st', q, Erring(failure))
  {
    VisitedOnce(st, order, q);
    CrowdPeopled(st, st1);
    QuietTold(st, st1, q);
    hide Sound, Heard, ReportAll;
    var mid := ReportAll(st1, failure, order);
    ReportAllTold(st1, failure, order, q);
    QuietThenTold(st, st1, mid, q, Erring(failure));
    QuietTold(mid, st', q);
    ToldThenQuiet(st, mid, st', q, Erring(failure));
  }

  lemma ScheduleCrowd(st: State)
    ensures SameCrowd(st, ScheduleReconnect(st)) && SameCrowd(st, st)
  {
  }

  lemma RetryCrowd(st: State, conn: int, r: SubRef)
    requires r in st.recs
    ensures SameCrowd(st, RetrySubscribe(st, conn, r)) && SameCrowd(st, st)
  {
  }

  lemma ConnectedCrowd(st: State, st1: State, st2: State, order: seq<SubRef>)
    requires SameCrowd(st, st1)
    requires st2 == st1.(conn := Some(st.connSeq), connSeq := st.connSeq + 1, authSent := true)
    ensures SameCrowd(st, SubscribeAll(st2, st.connSeq, order))
  {
    SubscribeAllCrowd(st2, st.connSeq, order);
  }

  lemma ConnectCases(st: State, e: Event, q: SubRef)
    requires e.ConnectEvent? && q in st.recs
    requires forall i :: 0 <= i < |e.order| ==> e.order[i] in st.recs
    ensures var st0 := st.(tasks := st.tasks - {ConnectTask(e.sess)});
      var st1 := st0.(connecting := false);
      var st2 := st1.(conn := Some(st.connSeq), connSeq := st.connSeq + 1, authSent := true);
      var st', script := ConnectReturned(st, e.sess, e.result, e.order), ScriptOf(st, e, q);
      && SameCrowd(st, st0) && SameCrowd(st, st1) && st1.recs == st.recs
      && if st.sess != Some(e.sess) then st' == st0 && script == Nothing
         else match e.result
           case Refused => st' == TerminateAll(st1, TokenRefused, e.order) && script == Ending(st.recs[q], TokenRefused)
           case Failed => st' == ScheduleReconnect(ReportAll(st1, Transient, e.order)) && script == Erring(Transient)
           case Token => st' == SubscribeAll(st2, st.connSeq, e.order) && script == Nothing
  {
    hide TerminateAll, ReportAll, SubscribeAll, ScheduleReconnect, Ending;
  }

  lemma VisitsRecs(st: State, order: seq<SubRef>)
    requires VisitsAll(st, order)
    ensures forall i :: 0 <= i < |order| ==> order[i] in st.recs
  {
  }

  lemma ConnectTold(st: State, e: Event, q: SubRef)
    requires AllPeopled(st) && e.ConnectEvent? && VisitsAll(st, e.order) && Current(st, q) && q in st.recs
    requires forall i :: 0 <= i < |e.order| ==> e.order[i] in st.recs
    ensures Told(st, ConnectReturned(st, e.sess, e.result, e.order), q, ScriptOf(st, e, q))
  {
    hide *;
    ConnectCases(st, e, q);
    var st1 := st.(tasks := st.tasks - {ConnectTask(e.sess)}, connecting := false);
    var st2 := st1.(conn := Some(st.connSeq), connSeq := st.connSeq + 1, authSent := true);
    var st' := ConnectReturned(st, e.sess, e.result, e.order);
    if st.sess != Some(e.sess) {
      CrowdTold(st, st', q);
    } else {
      match e.result
      case Refused => AllEndTold(st, st1, TokenRefused, e.order, q);
      case Failed =>
        ScheduleCrowd(ReportAll(st1, Transient, e.order));
        AllHearTold(st, st1, st', Transient, e.order, q);
      case Token =>
        ConnectedCrowd(st, st1, st2, e.order);
        CrowdTold(st, st', q);
    }
  }

  lemma CrowdTold(st: State, st': State, q: SubRef)
    requires AllPeopled(st) && SameCrowd(st, st') && q in st.recs
    ensures Told(st, st', q, Nothing)
  {
    QuietTold(st, st', q);
  }

  lemma ReauthCases(st: State, e: Event, q: SubRef)
    requires e.ReauthEvent? && q in st.recs
    requires forall i :: 0 <= i < |e.order| ==> e.order[i] in st.recs
    ensures var st1 := st.(tasks := st.tasks - {ReauthTask(e.conn)});
      var st', script := ReauthReturned(st, e.conn, e.result, e.order), ScriptOf(st, e, q);
      && SameCrowd(st, st1) && st1.recs == st.recs
      && if st.conn != Some(e.conn) then st' == st1 && script == Nothing
         else match e.result
           case Refused => st' == TerminateAll(st1, TokenRefused, e.order) && script == Ending(st.recs[q], TokenRefused)
           case Failed => st' == ReportAll(st1, Transient, e.order) && script == Erring(Transient)
           case Token => st' == st1 && script == Nothing
  {
    hide TerminateAll, ReportAll, Ending;
  }

  lemma ReauthTold(st: State, e: Event, q: SubRef)
    requires AllPeopled(st) && e.ReauthEvent? && VisitsAll(st, e.order) && Current(st, q) && q in st.recs
    requires forall i :: 0 <= i < |e.order| ==> e.order[i] in st.recs
    ensures Told(st, ReauthReturned(st, e.conn, e.result, e.order), q, ScriptOf(st, e, q))
  {
    hide *;
    ReauthCases(st, e, q);
    var st1 := st.(tasks := st.tasks - {ReauthTask(e.conn)});
    var st' := ReauthReturned(st, e.conn, e.result, e.order);
    if st.conn != Some(e.conn) {
      CrowdTold(st, st1, q);
    } else {
      match e.result
      case Refused => AllEndTold(st, st1, TokenRefused, e.order, q);
      case Failed =>
        ScheduleCrowd(st');
        AllHearTold(st, st1, st', Transient, e.order, q);
      case Token => CrowdTold(st, st1, q);
    }
  }

  /** Something quiet, then one subscription is told of a failure, then something quiet. */
  lemma ReportTold(st: State, st1: State, st': State, r: SubRef, failure: Failure, q: SubRef)
    requires AllPeopled(st) && SameCrowd(st, st1) && r in st1.recs && q in st.recs
    requires SameCrowd(Report(st1, r, failure), st')
    ensures Told(st, st', q, For(q, r, Erring(failure)))
  {
    CrowdPeopled(st, st1);
    QuietTold(st, st1, q);
    hide Sound, Heard, Deliver;
    var mid := Report(st1, r, failure);
    DeliverTold(st1, r, StreamError(failure), q);
    QuietThenTold(st, st1, mid, q, For(q, r, Erring(failure)));
    QuietTold(mid, st', q);
    ToldThenQuiet(st, mid, st', q, For(q, r, Erring(failure)));
  }

  /** Something quiet, then one subscription ends. */
  lemma OneEndTold(st: State, st1: State, r: SubRef, failure: Failure, q: SubRef)
    requires AllPeopled(st) && SameCrowd(st, st1) && Current(st, r) && q in st.recs
    requires st1.recs[r].state == st.recs[r].state
    ensures Told(st, Terminate(st1, r, failure), q, For(q, r, Ending(st.recs[r], failure)))
  {
    CrowdPeopled(st, st1);
    QuietTold(st, st1, q);
    assert Current(st1, r);
    hide Sound, Heard, Terminate;
    TerminateTold(st1, r, failure, q);
    QuietThenTold(st, st1, Terminate(st1, r, failure), q, For(q, r, Ending(st.recs[r], failure)));
  }

  lemma WrittenCrowd(st: State, conn: int, r: SubRef, id: RequestId)
    requires r in st.recs && st.conn == Some(conn) && AwaitsToken(st, r, id)
    ensures SameCrowd(st, SubscribeTokenReturned(st, conn, r, id, Token))
  {
    TokenReturnedInOrder(st, conn, r, id, Token);
  }

  lemma SubscribeTokenTold(st: State, e: Event, q: SubRef)
    requires AllPeopled(st) && e.SubscribeTokenEvent? && e.r in st.recs && q in st.recs
    requires AwaitsToken(st, e.r, e.id) ==> Current(st, e.r)
    ensures Told(st, SubscribeTokenReturned(st, e.conn, e.r, e.id, e.result), q, ScriptOf(st, e, q))
  {
    var st0 := st.(tasks := st.tasks - {SubscribeTask(e.conn, e.r, e.id)});
    var st1 := st0.(pending := st.pending - {e.id});
    var s := st.recs[e.r];
    assert SameCrowd(st, st0) && SameCrowd(st, st1);
    TokenReturnedInOrder(st, e.conn, e.r, e.id, e.result);
    var script := ScriptOf(st, e, q);
    assert script == For(q, e.r, if AwaitsToken(st, e.r, e.id) then TokenScript(s, e.result) else Nothing);
    hide Sound, Heard, Terminate, Deliver, SameCrowd, AllPeopled, Told, Ending, RetrySubscribe, SubscribeTokenReturned,
      Tokened, ScriptOf, Current, IsCurrent;
    var st' := SubscribeTokenReturned(st, e.conn, e.r, e.id, e.result);
    if !AwaitsToken(st, e.r, e.id) {
      CrowdTold(st, st0, q);
    } else {
      match e.result
      case Refused => OneEndTold(st, st1, e.r, TokenRefused, q);
      case Failed =>
        RetryCrowd(Report(st1, e.r, Transient), e.conn, e.r);
        ReportTold(st, st1, st', e.r, Transient, q);
      case Token =>
        if st.conn == Some(e.conn) { WrittenCrowd(st, e.conn, e.r, e.id); }
        CrowdTold(st, st', q);
    }
  }

  lemma RefreshCases(st: State, e: Event, q: SubRef)
    requires e.RefreshTokenEvent? && e.r in st.recs && q in st.recs
    ensures var st0 := st.(tasks := st.tasks - {RefreshTask(e.conn, e.r, e.serverSub)});
      var st' := RefreshReturned(st, e.conn, e.r, e.serverSub, e.result);
      var failure := if e.result == Refused then TokenRefused else Transient;
      && SameCrowd(st, st0)
      && (Current(st, q) ==>
            if st.conn != Some(e.conn) || st.recs[e.r].sub != e.serverSub || !Current(st, e.r) || e.result == Token
            then SameCrowd(st, st') && ScriptOf(st, e, q) == Nothing
            else st' == Report(st0, e.r, failure) && ScriptOf(st, e, q) == For(q, e.r, Erring(failure)))
  {
    hide Deliver;
  }

  lemma RefreshTold(st: State, e: Event, q: SubRef)
    requires AllPeopled(st) && e.RefreshTokenEvent? && e.r in st.recs && Current(st, q)
    ensures Told(st, RefreshReturned(st, e.conn, e.r, e.serverSub, e.result), q, ScriptOf(st, e, q))
  {
    var st0 := st.(tasks := st.tasks - {RefreshTask(e.conn, e.r, e.serverSub)});
    var st' := RefreshReturned(st, e.conn, e.r, e.serverSub, e.result);
    hide *;
    RefreshCases(st, e, q);
    if st.conn != Some(e.conn) || st.recs[e.r].sub != e.serverSub || !Current(st, e.r) || e.result == Token {
      CrowdTold(st, st', q);
    } else {
      ScheduleCrowd(st');
      ReportTold(st, st0, st', e.r, if e.result == Refused then TokenRefused else Transient, q);
    }
  }

  lemma ExpiredCrowd(st: State, conn: int, r: SubRef)
    requires r in st.recs
    ensures SameCrowd(st, if st.conn == Some(conn) && Current(st, r)
      && st.recs[r].sub == 0 then RetrySubscribe(st, conn, r)
                          else st)
  {
    RetryCrowd(st, conn, r);
  }

  lemma AckCases(st: State, e: Event, q: SubRef)
    requires e.AckEvent? && e.r in st.recs && q in st.recs
    ensures var s := st.recs[e.r];
      var st1 := WithRec(st, e.r, s.(ackTimer := None));
      var st2 := st1.(pending := st.pending - {e.timer.request});
      var st', script := AckFired(st, e.r, e.timer), ScriptOf(st, e, q);
      && SameCrowd(st, st1) && SameCrowd(st, st2) && st1.recs[e.r].state == s.state
      && if s.ackTimer != Some(e.timer) then st' == st && script == Nothing
         else if !AwaitsToken(st, e.r, e.timer.request) then st' == st1 && script == Nothing
         else if !s.confirmed then
           st' == Terminate(st1, e.r, SubscribeTimeout) && script == For(q, e.r, Ending(s, SubscribeTimeout))
         else
           var mid := Report(st2, e.r, SubscribeTimeout);
           && script == For(q, e.r, Erring(SubscribeTimeout))
           && st' == if mid.conn == Some(e.timer.conn) && Current(mid, e.r) && mid.recs[e.r].sub == 0
             then RetrySubscribe(mid, e.timer.conn, e.r) else mid
  {
    hide Deliver, Terminate, RetrySubscribe;
  }

  lemma AckTold(st: State, e: Event, q: SubRef)
    requires AllPeopled(st) && e.AckEvent? && e.r in st.recs && q in st.recs
    requires AwaitsToken(st, e.r, e.timer.request) ==> Current(st, e.r)
    ensures Told(st, AckFired(st, e.r, e.timer), q, ScriptOf(st, e, q))
  {
    hide *;
    AckCases(st, e, q);
    var s := st.recs[e.r];
    var st1 := WithRec(st, e.r, s.(ackTimer := None));
    var st2 := st1.(pending := st.pending - {e.timer.request});
    if s.ackTimer != Some(e.timer) {
      ScheduleCrowd(st);
      CrowdTold(st, st, q);
    } else if !AwaitsToken(st, e.r, e.timer.request) {
      CrowdTold(st, st1, q);
    } else if !s.confirmed {
      OneEndTold(st, st1, e.r, SubscribeTimeout, q);
    } else {
      ExpiredCrowd(Report(st2, e.r, SubscribeTimeout), e.timer.conn, e.r);
      ReportTold(st, st2, AckFired(st, e.r, e.timer), e.r, SubscribeTimeout, q);
    }
  }

  lemma DetachCrowd(st: State)
    ensures SameCrowd(st, Detach(st))
    ensures forall q :: q in st.recs ==> Detach(st).recs[q].state == st.recs[q].state
  {
  }

  lemma AllLeaveTold(st: State, st1: State, order: seq<SubRef>, q: SubRef)
    requires AllPeopled(st) && SameCrowd(st, st1) && VisitsAll(st, order) && Current(st, q)
    requires st1.recs[q].state == st.recs[q].state
    ensures (forall i :: 0 <= i < |order| ==> order[i] in st1.recs)
      && Told(st, NotifyAllDisconnected(st1, order), q, Leaving(st.recs[q]))
  {
    VisitedOnce(st, order, q);
    CrowdPeopled(st, st1);
    QuietTold(st, st1, q);
    hide Sound, Heard, NotifyAllDisconnected;
    NotifyAllTold(st1, order, q);
    QuietThenTold(st, st1, NotifyAllDisconnected(st1, order), q, Leaving(st.recs[q]));
  }

  lemma ClosedCases(st: State, e: Event, q: SubRef)
    requires e.ClosedEvent? && Current(st, q) && Consistent(st.recs[q])
    requires forall i :: 0 <= i < |e.order| ==> e.order[i] in st.recs
    ensures var st2 := if e.stable then Detach(st).(reconnectAttempt := 0) else Detach(st);
      var st', script := SocketClosed(st, e.conn, e.code, e.stable, e.order), ScriptOf(st, e, q);
      if st.conn != Some(e.conn) then st' == st && script == Nothing
      else if e.code == 4400 || e.code == 4403 then
        && st' == TerminateAll(st2, ConnectionClosed(e.code), e.order)
        && script == Ending(st.recs[q], ConnectionClosed(e.code))
      else st' == NotifyAllDisconnected(ScheduleReconnect(st2), e.order) && script == Leaving(st.recs[q])
  {
    hide TerminateAll, NotifyAllDisconnected, ScheduleReconnect;
  }

  lemma ClosedTold(st: State, e: Event, q: SubRef)
    requires AllPeopled(st) && e.ClosedEvent? && VisitsAll(st, e.order) && Current(st, q) && Consistent(st.recs[q])
    requires forall i :: 0 <= i < |e.order| ==> e.order[i] in st.recs
    ensures Told(st, SocketClosed(st, e.conn, e.code, e.stable, e.order), q, ScriptOf(st, e, q))
  {
    var st2 := if e.stable then Detach(st).(reconnectAttempt := 0) else Detach(st);
    hide *;
    DetachedCrowd(st, st2, q);
    ClosedCases(st, e, q);
    if st.conn != Some(e.conn) {
      ScheduleCrowd(st);
      CrowdTold(st, st, q);
    } else if e.code == 4400 || e.code == 4403 {
      AllEndTold(st, st2, ConnectionClosed(e.code), e.order, q);
    } else {
      AllLeaveTold(st, ScheduleReconnect(st2), e.order, q);
    }
  }

  lemma DetachedCrowd(st: State, st2: State, q: SubRef)
    requires st2 == Detach(st) || st2 == Detach(st).(reconnectAttempt := 0)
    requires Current(st, q)
    ensures SameCrowd(st, st2) && SameCrowd(st, ScheduleReconnect(st2)) && st2.subs != map[]
    ensures st2.recs[q].state == ScheduleReconnect(st2).recs[q].state == st.recs[q].state
  {
    DetachCrowd(st);
    hide Detach;
  }

  // ---------- Frames ----------

  lemma DropCrowd(st: State, r: SubRef)
    requires r in st.recs
    ensures SameCrowd(st, DropServerSub(st, r))
    ensures DropServerSub(st, r).recs[r].state == st.recs[r].state
  {
  }

  lemma RedialCrowd(st: State, conn: int, r: SubRef)
    requires r in st.recs
    ensures SameCrowd(st, Redial(st, conn, r)) && Redial(st, conn, r).recs[r].state == st.recs[r].state
  {
    RetryCrowd(st, conn, r);
    var s := st.recs[r].(retries := 1);
    EditCrowd(st, r, s);
    assert SameCrowd(WithRec(st, r, s), SubscribeServer(WithRec(st, r, s), conn, r)) by {
      SubscribeCrowd(WithRec(st, r, s), conn, r);
    }
    hide SameCrowd, SubscribeServer;
    CrowdTrans(st, WithRec(st, r, s), SubscribeServer(WithRec(st, r, s), conn, r));
  }

  lemma SubscribeCrowd(st: State, conn: int, r: SubRef)
    ensures SameCrowd(st, SubscribeServer(st, conn, r))
  {
  }

  lemma CrowdTrans(x: State, y: State, z: State)
    requires SameCrowd(x, y) && SameCrowd(y, z)
    ensures SameCrowd(x, z)
  {
    assert forall q :: q in x.recs ==> (Current(x, q) <==> Current(y, q));
  }

  /** Something quiet, then a subscription that forgets its server subscription and subscribes again. */
  lemma ResubscribeTold(st: State, st1: State, conn: int, r: SubRef, q: SubRef)
    requires AllPeopled(st) && SameCrowd(st, st1) && r in st.recs && q in st.recs
    requires r in st1.recs && st1.recs[r].state == st.recs[r].state && Consistent(st.recs[r])
    ensures Told(st, Resubscribe(st1, conn, r), q, For(q, r, Dropping(st.recs[r])))
  {
    var mid := Redial(DropServerSub(st1, r), conn, r);
    DropCrowd(st1, r);
    RedialCrowd(DropServerSub(st1, r), conn, r);
    hide DropServerSub, Redial, Sound, Heard, NotifyDisconnected;
    CrowdTrans(st1, DropServerSub(st1, r), mid);
    CrowdTrans(st, st1, mid);
    CrowdPeopled(st, mid);
    CrowdTold(st, mid, q);
    NotifyTold(mid, r, q);
    QuietThenTold(st, mid, Resubscribe(st1, conn, r), q, For(q, r, Dropping(st.recs[r])));
  }

  /** Something quiet that changes no more than one record. */
  lemma EditCrowd(st: State, r: SubRef, s: Sub)
    requires SameSeat(st, r, s)
    ensures SameCrowd(st, WithRec(st, r, s))
  {
  }

  lemma EndedCases(st1: State, conn: int, r: SubRef)
    requires r in st1.recs
    ensures var st2 := WithRec(st1, r, st1.recs[r].(sub := 0)).(bySub := st1.bySub - {st1.recs[r].sub});
      && SameCrowd(st1, st2) && st2.recs[r].state == st1.recs[r].state
      && ServerEnded(st1, conn, r) == Resubscribe(st2, conn, r)
  {
    hide Resubscribe;
  }

  lemma ServerEndedTold(st: State, st1: State, conn: int, r: SubRef, q: SubRef)
    requires AllPeopled(st) && SameCrowd(st, st1) && r in st.recs && q in st.recs
    requires r in st1.recs && st1.recs[r].state == st.recs[r].state && Consistent(st.recs[r])
    ensures Told(st, ServerEnded(st1, conn, r), q, For(q, r, Dropping(st.recs[r])))
  {
    hide *;
    var st2 := WithRec(st1, r, st1.recs[r].(sub := 0)).(bySub := st1.bySub - {st1.recs[r].sub});
    EndedCases(st1, conn, r);
    CrowdTrans(st, st1, st2);
    ResubscribeTold(st, st2, conn, r, q);
  }

  /** One record is edited, and its consumers are told of it. */
  lemma AnnounceTold(st: State, st1: State, r: SubRef, s: Sub, event: StreamEvent, q: SubRef)
    requires AllPeopled(st) && SameCrowd(st, st1) && SameSeat(st1, r, s) && q in st.recs
    ensures Told(st, Deliver(WithRec(st1, r, s), r, event), q, For(q, r, Telling([event])))
  {
    CrowdPeopled(st, st1);
    CrowdTold(st, st1, q);
    hide Sound, Heard, Deliver, SameSeat;
    EditDeliverTold(st1, r, s, event, q);
    QuietThenTold(st, st1, Deliver(WithRec(st1, r, s), r, event), q, For(q, r, Telling([event])));
  }

  /** The same record with the number of the last frame noted. */
  predicate Numbered(s: Sub, s1: Sub) {
    s1 == s.(seqNo := s1.seqNo)
  }

  lemma NumberedCrowd(st: State, r: SubRef, s1: Sub)
    requires r in st.recs && Numbered(st.recs[r], s1)
    ensures SameCrowd(st, WithRec(st, r, s1))
    ensures WithRec(st, r, s1).recs[r] == s1 && (Current(st, r) ==> Current(WithRec(st, r, s1), r))
  {
  }

  lemma EndSnapshotCases(st: State, conn: int, r: SubRef, count: int, cursor: Cursor)
    requires r in st.recs
    ensures var s, st' := st.recs[r], EndSnapshot(st, conn, r, count, cursor);
      if !s.staging || |s.staged| != count then
        var s2 := s.(staging := false, staged := [], cursor := 0);
        st' == Resubscribe(WithRec(st, r, s2), conn, r) && SameSeat(st, r, s2)
          && WithRec(st, r, s2).recs[r].state == s.state
      else
        && st' == Deliver(WithRec(st, r, SnapshotRec(s, cursor)), r, Snapshot(s.staged))
        && SameSeat(st, r, SnapshotRec(s, cursor))
  {
    hide Resubscribe, Deliver;
  }

  lemma EndSnapshotTold(st: State, s1: Sub, conn: int, r: SubRef, count: int, cursor: Cursor, q: SubRef)
    requires AllPeopled(st) && Current(st, r) && Numbered(st.recs[r], s1) && q in st.recs && Consistent(st.recs[r])
    ensures Told(st, EndSnapshot(WithRec(st, r, s1), conn, r, count, cursor), q,
                 For(q, r, DataScript(st.recs[r], SnapshotEnd(count, cursor))))
  {
    var st1 := WithRec(st, r, s1);
    NumberedCrowd(st, r, s1);
    assert s1.state == st.recs[r].state;
    assert DataScript(st.recs[r], SnapshotEnd(count, cursor)) ==
      if s1.staging && |s1.staged| == count then Telling([Snapshot(s1.staged)]) else Dropping(st.recs[r]);
    hide *;
    EndSnapshotCases(st1, conn, r, count, cursor);
    if !s1.staging || |s1.staged| != count {
      var s2 := s1.(staging := false, staged := [], cursor := 0);
      EditCrowd(st1, r, s2);
      CrowdTrans(st, st1, WithRec(st1, r, s2));
      ResubscribeTold(st, WithRec(st1, r, s2), conn, r, q);
    } else {
      AnnounceTold(st, st1, r, SnapshotRec(s1, cursor), Snapshot(s1.staged), q);
    }
  }

  /** A frame that is announced to the consumers as `event`, and the record after it. */
  function Announcement(s: Sub, frame: Frame): Option<(Sub, StreamEvent)> {
    match frame
    case UnitFrame(changed, removed, nextCursor) =>
      Some((UnitRec(s, changed, removed, nextCursor), Unit(changed, removed)))
    case ReadyFrame => if s.ready then None else Some((s.(retries := 0, ready := true), Ready))
    case Unavailable(reason, ids) =>
      Some((s.(stale := true, staleReason := reason, staleOrderIds := ids), Stale(true, reason, ids)))
    case Available => Some((FreshRec(s), Stale(false, 0, [])))
    case _ => None
  }

  lemma AnnouncedCases(st: State, conn: int, r: SubRef, frame: Frame)
    requires r in st.recs && Announcement(st.recs[r], frame).Some?
    ensures var (s2, event) := Announcement(st.recs[r], frame).value;
      && SameSeat(st, r, s2) && Process(st, conn, r, frame) == Deliver(WithRec(st, r, s2), r, event)
      && DataScript(st.recs[r], frame) == Telling([event])
  {
    hide Deliver;
  }

  lemma AnnouncedTold(st: State, s1: Sub, conn: int, r: SubRef, frame: Frame, q: SubRef)
    requires AllPeopled(st) && Current(st, r) && Numbered(st.recs[r], s1) && q in st.recs
    requires Announcement(s1, frame).Some?
    ensures Told(st, Process(WithRec(st, r, s1), conn, r, frame), q, For(q, r, DataScript(s1, frame)))
  {
    NumberedCrowd(st, r, s1);
    hide *;
    var st1 := WithRec(st, r, s1);
    var (s2, event) := Announcement(s1, frame).value;
    AnnouncedCases(st1, conn, r, frame);
    AnnounceTold(st, st1, r, s2, event, q);
  }

  lemma SilentCases(st: State, conn: int, r: SubRef, frame: Frame)
    requires r in st.recs && Announcement(st.recs[r], frame).None? && !frame.SnapshotEnd? && !frame.Unsubscribed?
    ensures var st' := Process(st, conn, r, frame);
      st' == st.(recs := st.recs[r := st'.recs[r]], tasks := st'.tasks) && SameSeat(st, r, st'.recs[r])
    ensures DataScript(st.recs[r], frame) == Nothing
  {
    hide Deliver, Resubscribe;
    assert st.recs[r := st.recs[r]] == st.recs;
  }

  lemma TaskCrowd(st: State, st': State, r: SubRef)
    requires r in st.recs && r in st'.recs && st' == st.(recs := st.recs[r := st'.recs[r]], tasks := st'.tasks)
    requires SameSeat(st, r, st'.recs[r])
    ensures SameCrowd(st, st')
  {
  }

  /** A frame that is not. */
  lemma SilentTold(st: State, s1: Sub, conn: int, r: SubRef, frame: Frame, q: SubRef)
    requires AllPeopled(st) && Current(st, r) && Numbered(st.recs[r], s1) && q in st.recs
    requires Announcement(s1, frame).None? && !frame.SnapshotEnd? && !frame.Unsubscribed?
    ensures Told(st, Process(WithRec(st, r, s1), conn, r, frame), q, For(q, r, DataScript(s1, frame)))
  {
    NumberedCrowd(st, r, s1);
    assert For(q, r, Nothing) == Nothing;
    hide *;
    var st1 := WithRec(st, r, s1);
    SilentCases(st1, conn, r, frame);
    var st' := Process(st1, conn, r, frame);
    TaskCrowd(st1, st', r);
    CrowdTrans(st, st1, st');
    CrowdTold(st, st', q);
  }

  lemma ProcessTold(st: State, s1: Sub, conn: int, r: SubRef, frame: Frame, q: SubRef)
    requires AllPeopled(st) && Current(st, r) && Numbered(st.recs[r], s1) && q in st.recs && Consistent(st.recs[r])
    ensures Told(st, Process(WithRec(st, r, s1), conn, r, frame), q, For(q, r, DataScript(st.recs[r], frame)))
  {
    NumberedCrowd(st, r, s1);
    UnnumberedScript(st.recs[r], s1, frame);
    hide *;
    if frame.SnapshotEnd? {
      ProcessCases(WithRec(st, r, s1), conn, r, frame);
      EndSnapshotTold(st, s1, conn, r, frame.count, frame.cursor, q);
    } else if frame.Unsubscribed? {
      ProcessCases(WithRec(st, r, s1), conn, r, frame);
      EndedTold(st, s1, conn, r, q);
    } else if Announcement(s1, frame).Some? {
      AnnouncedTold(st, s1, conn, r, frame, q);
    } else {
      SilentTold(st, s1, conn, r, frame, q);
    }
  }

  lemma ProcessCases(st: State, conn: int, r: SubRef, frame: Frame)
    requires r in st.recs && (frame.SnapshotEnd? || frame.Unsubscribed?)
    ensures frame.SnapshotEnd? ==> Process(st, conn, r, frame) == EndSnapshot(st, conn, r, frame.count, frame.cursor)
    ensures frame.Unsubscribed? ==>
      Process(st, conn, r, frame) == ServerEnded(st, conn, r) && DataScript(st.recs[r], frame) == Dropping(st.recs[r])
  {
    hide EndSnapshot, ServerEnded;
  }

  lemma UnnumberedScript(s: Sub, s1: Sub, frame: Frame)
    requires Numbered(s, s1)
    ensures DataScript(s, frame) == DataScript(s1, frame) && Dropping(s) == Dropping(s1)
  {
  }

  lemma EndedTold(st: State, s1: Sub, conn: int, r: SubRef, q: SubRef)
    requires AllPeopled(st) && Current(st, r) && Numbered(st.recs[r], s1) && q in st.recs && Consistent(st.recs[r])
    ensures Told(st, ServerEnded(WithRec(st, r, s1), conn, r), q, For(q, r, Dropping(st.recs[r])))
  {
    NumberedCrowd(st, r, s1);
    assert s1.state == st.recs[r].state;
    hide *;
    ServerEndedTold(st, WithRec(st, r, s1), conn, r, q);
  }

  lemma SubFrameTold(st: State, conn: int, sid: ServerSub, seqNo: int, frame: Frame, q: SubRef)
    requires AllPeopled(st) && Rooted(st) && q in st.recs
    requires sid in st.bySub ==> Current(st, st.bySub[sid]) && Consistent(st.recs[st.bySub[sid]])
    ensures Told(st, OnSubFrame(st, conn, sid, seqNo, frame), q,
                 if sid in st.bySub && st.bySub[sid] == q then SubScript(st.recs[q], seqNo, frame) else Nothing)
  {
    var st' := OnSubFrame(st, conn, sid, seqNo, frame);
    if sid !in st.bySub {
      assert st' == st;
      hide *;
      ScheduleCrowd(st);
      CrowdTold(st, st, q);
    } else {
      var r := st.bySub[sid];
      var script := SubScript(st.recs[r], seqNo, frame);
      assert For(q, r, script) == if r == q then SubScript(st.recs[q], seqNo, frame) else Nothing;
      if seqNo > 0 && seqNo != st.recs[r].seqNo + 1 {
        assert st' == Resubscribe(st, conn, r) && script == Dropping(st.recs[r]);
        hide *;
        ScheduleCrowd(st);
        ResubscribeTold(st, st, conn, r, q);
      } else {
        var s := if seqNo > 0 then st.recs[r].(seqNo := seqNo) else st.recs[r];
        assert st' == Process(WithRec(st, r, s), conn, r, frame) && script == DataScript(st.recs[r], frame);
        assert Numbered(st.recs[r], s);
        hide *;
        ProcessTold(st, s, conn, r, frame, q);
      }
    }
  }

  lemma ConfirmedCrowd(st: State, id: RequestId, sid: ServerSub)
    requires Rooted(st) && id in st.pending && Current(st, st.pending[id].s)
    ensures var r := st.pending[id].s; var s := st.recs[r];
      SameCrowd(st, WithRec(st, r, s.(ackTimer := None, confirmed := true, sub := sid, seqNo := 0, ready := false)).(
        pending := st.pending - {id}, bySub := st.bySub[sid := r]))
  {
  }

  lemma SubscribedCases(st: State, id: RequestId, sid: ServerSub, q: SubRef)
    requires Rooted(st) && q in st.recs
    ensures var st', script := OnSubscribed(st, id, sid), MessageScript(st, q, sid, 0, Subscribed(id));
      if id !in st.pending || st.pending[id].kind != RequestSubscribe then SameCrowd(st, st') && script == Nothing
      else
        var r := st.pending[id].s;
        var s := st.recs[r];
        var st1 := WithRec(st, r, s.(ackTimer := None, confirmed := true, sub := sid, seqNo := 0, ready := false)).(
          pending := st.pending - {id}, bySub := st.bySub[sid := r]);
        && st' == NotifyFresh(NotifyConnected(st1, r), r)
        && st1.recs[r].state == s.state && st1.recs[r].stale == s.stale
        && script ==
           For(q, r, Telling(Maybe(s.state != SubConnected, Connected) + Maybe(s.stale, Stale(false, 0, []))))
  {
    hide NotifyFresh, NotifyConnected;
  }

  lemma SubscribedTold(st: State, id: RequestId, sid: ServerSub, q: SubRef)
    requires AllPeopled(st) && Rooted(st) && q in st.recs
    requires id in st.pending ==> Current(st, st.pending[id].s)
    ensures Told(st, OnSubscribed(st, id, sid), q, MessageScript(st, q, sid, 0, Subscribed(id)))
  {
    hide *;
    SubscribedCases(st, id, sid, q);
    if id !in st.pending || st.pending[id].kind != RequestSubscribe {
      CrowdTold(st, OnSubscribed(st, id, sid), q);
    } else {
      var r := st.pending[id].s;
      RootedAt(st, id);
      var s := st.recs[r];
      var st1 := WithRec(st, r, s.(ackTimer := None, confirmed := true, sub := sid, seqNo := 0, ready := false)).(
        pending := st.pending - {id}, bySub := st.bySub[sid := r]);
      ConfirmedCrowd(st, id, sid);
      ConfirmedTold(st, st1, r, q);
    }
  }

  lemma RootedAt(st: State, id: RequestId)
    requires Rooted(st) && id in st.pending
    ensures st.pending[id].s in st.recs
  {
  }

  /** The connection is announced, and that the orders are no longer stale. */
  lemma ConfirmedTold(st: State, st1: State, r: SubRef, q: SubRef)
    requires AllPeopled(st) && SameCrowd(st, st1) && Current(st, r) && q in st.recs
    requires st1.recs[r].state == st.recs[r].state && st1.recs[r].stale == st.recs[r].stale
    ensures var s := st.recs[r];
      Told(st, NotifyFresh(NotifyConnected(st1, r), r), q,
           For(q, r, Telling(Maybe(s.state != SubConnected, Connected) + Maybe(s.stale, Stale(false, 0, [])))))
  {
    var s, mid := st.recs[r], NotifyConnected(st1, r);
    CrowdPeopled(st, st1);
    CrowdTold(st, st1, q);
    ConnectedTold(st1, r, q);
    hide Sound, Heard, NotifyConnected, NotifyFresh, SameCrowd;
    var first := Maybe(s.state != SubConnected, Connected);
    QuietThenTold(st, st1, mid, q, For(q, r, Telling(first)));
    FreshTold(mid, r, q);
    TellMore(st, mid, NotifyFresh(mid, r), q, r, first, Telling(Maybe(s.stale, Stale(false, 0, []))));
  }

  lemma ConnectedTold(st: State, r: SubRef, q: SubRef)
    requires Sound(st) && r in st.recs && q in st.recs && Peopled(st, q)
    ensures Told(st, NotifyConnected(st, r), q, For(q, r, Telling(Maybe(st.recs[r].state != SubConnected, Connected))))
    ensures NotifyConnected(st, r).recs[r].stale == st.recs[r].stale
  {
    ScheduleCrowd(st);
    hide Sound, Heard, Deliver, SameCrowd;
    if st.recs[r].state != SubConnected {
      var st1 := WithState(st, r, SubConnected);
      EditDeliverTold(st, r, st.recs[r].(state := SubConnected), Connected, q);
      OfferKeepsView(st1, r, st1.recs[r].consumers, Connected);
      assert Deliver(st1, r, Connected) ==
        Offer(st1, r, st1.recs[r].consumers, Connected) by { DeliverIsOffer(st1, r, Connected); }
    } else {
      QuietTold(st, st, q);
    }
  }

  lemma DeliverIsOffer(st: State, r: SubRef, event: StreamEvent)
    requires r in st.recs
    ensures Deliver(st, r, event) == Offer(st, r, st.recs[r].consumers, event)
  {
  }

  lemma FreshTold(st: State, r: SubRef, q: SubRef)
    requires Sound(st) && r in st.recs && q in st.recs && Peopled(st, q)
    ensures Told(st, NotifyFresh(st, r), q, For(q, r, Telling(Maybe(st.recs[r].stale, Stale(false, 0, [])))))
  {
    ScheduleCrowd(st);
    hide Sound, Heard, Deliver, SameCrowd;
    if st.recs[r].stale {
      EditDeliverTold(st, r, FreshRec(st.recs[r]), Stale(false, 0, []), q);
    } else {
      QuietTold(st, st, q);
    }
  }

  lemma SubscriptionErrorTold(st: State, st1: State, conn: int, r: SubRef, sid: ServerSub, code: ErrorCode, q: SubRef)
    requires AllPeopled(st) && SameCrowd(st, st1) && Current(st, r) && q in st.recs && Consistent(st.recs[r])
    requires st1.recs == st.recs
    ensures Told(st, SubscriptionError(st1, conn, r, sid, code), q,
      For(q, r, LostScript(st.recs[r], sid, code)))
  {
    hide AllPeopled, SameCrowd, Told, Consistent, Dropping, ServerEnded, Deliver;
    if code == SubscriptionUnknown && st.recs[r].sub == sid {
      ServerEndedTold(st, st1, conn, r, q);
    } else {
      ScheduleCrowd(Report(st1, r, RequestFailed(code)));
      ReportTold(st, st1, Report(st1, r, RequestFailed(code)), r, RequestFailed(code), q);
    }
  }

  lemma SubscribeErrorTold(st: State, st1: State, conn: int, r: SubRef, code: ErrorCode, q: SubRef)
    requires AllPeopled(st) && SameCrowd(st, st1) && Current(st, r) && q in st.recs && st1.recs == st.recs
    ensures Told(st, SubscribeError(st1, conn, r, code), q,
      For(q, r, if code == CursorInvalid then Nothing else Ending(st.recs[r], RequestFailed(code))))
  {
    if code == CursorInvalid {
      var st2 := WithRec(st1, r, st1.recs[r].(cursor := 0));
      assert SameCrowd(st1, SubscribeServer(st2, conn, r));
      CrowdTrans(st, st1, SubscribeServer(st2, conn, r));
      hide AllPeopled, SameCrowd, Told, SubscribeServer;
      CrowdTold(st, SubscribeServer(st2, conn, r), q);
    } else {
      hide AllPeopled, SameCrowd, Told, Terminate, Ending;
      OneEndTold(st, st1, r, RequestFailed(code), q);
    }
  }

  lemma ErrorCases(st: State, conn: int, sid: ServerSub, id: RequestId, code: ErrorCode, order: seq<SubRef>, q: SubRef)
    requires Rooted(st) && q in st.recs
    requires forall i :: 0 <= i < |order| ==> order[i] in st.recs
    requires sid in st.bySub ==> st.recs[st.bySub[sid]].sub == sid
    requires id in st.pending ==> st.pending[id].s in st.recs
    ensures var st', script := OnRequestError(st, conn, sid, id, code, order), ErrorScript(st, q, sid, id, code);
      var st1 := st.(pending := st.pending - {id});
      && SameCrowd(st, st1)
      && if id == 0 then
           if sid in st.bySub then
             && st' == SubscriptionError(st, conn, st.bySub[sid], sid, code)
             && script == For(q, st.bySub[sid], LostScript(st.recs[st.bySub[sid]], sid, code))
           else st' == ReportAll(st, RequestFailed(code), order) && script == Erring(RequestFailed(code))
         else if id in st.unsubscribing || id !in st.pending then SameCrowd(st, st') && script == Nothing
         else
           var r := st.pending[id].s;
           if st.pending[id].kind == RequestSubscribe then
             && st' == SubscribeError(st1, conn, r, code)
             && script == For(q, r, if code == CursorInvalid then Nothing else Ending(st.recs[r], RequestFailed(code)))
           else
             && st' == SubscriptionError(st1, conn, r, sid, code)
             && script == For(q, r, LostScript(st.recs[r], sid, code))
  {
    hide SubscriptionError, SubscribeError, ReportAll, Dropping, Ending;
  }

  /** An error of a subscription, which may say that the server does not know it. */
  function LostScript(s: Sub, sid: ServerSub, code: ErrorCode): Script {
    if code == SubscriptionUnknown && s.sub == sid then Dropping(s) else Erring(RequestFailed(code))
  }

  lemma RequestErrorTold(st: State, conn: int, sid: ServerSub, id: RequestId, code: ErrorCode, order: seq<SubRef>,
                         q: SubRef)
    requires AllPeopled(st) && OwnersKnown(st) && VisitsAll(st, order) && Current(st, q)
    ensures Told(st, OnRequestError(st, conn, sid, id, code, order), q, ErrorScript(st, q, sid, id, code))
  {
    assert forall i :: 0 <= i < |order| ==> order[i] in st.recs;
    assert sid in st.bySub ==>
      var r := st.bySub[sid]; Current(st, r) && st.recs[r].sub == sid && Consistent(st.recs[r]);
    assert id in st.pending ==> var r := st.pending[id].s; Current(st, r) && Consistent(st.recs[r]);
    hide *;
    var st1 := st.(pending := st.pending - {id});
    ErrorCases(st, conn, sid, id, code, order, q);
    if id == 0 {
      if sid in st.bySub {
        ScheduleCrowd(st);
        SubscriptionErrorTold(st, st, conn, st.bySub[sid], sid, code, q);
      } else {
        AllHearAgain(st, RequestFailed(code), order, q);
      }
    } else if id in st.unsubscribing || id !in st.pending {
      CrowdTold(st, OnRequestError(st, conn, sid, id, code, order), q);
    } else if st.pending[id].kind == RequestSubscribe {
      SubscribeErrorTold(st, st1, conn, st.pending[id].s, code, q);
    } else {
      SubscriptionErrorTold(st, st1, conn, st.pending[id].s, sid, code, q);
    }
  }

  lemma AllHearAgain(st: State, failure: Failure, order: seq<SubRef>, q: SubRef)
    requires AllPeopled(st) && VisitsAll(st, order) && Current(st, q)
    ensures Told(st, ReportAll(st, failure, order), q, Erring(failure))
  {
    ScheduleCrowd(st);
    ScheduleCrowd(ReportAll(st, failure, order));
    hide AllPeopled, SameCrowd, Told, ReportAll;
    AllHearTold(st, st, ReportAll(st, failure, order), failure, order, q);
  }

  lemma FrameCases(st: State, e: Event, q: SubRef)
    requires Rooted(st) && e.FrameEvent? && q in st.recs
    requires forall i :: 0 <= i < |e.order| ==> e.order[i] in st.recs
    ensures var st', script := FrameArrived(st, e.conn, e.msg, e.order), ScriptOf(st, e, q);
      if st.conn != Some(e.conn) then st' == st && script == Nothing
      else if e.msg.Unreadable? then st' == ReportAll(st, BadFrame, e.order) && script == Erring(BadFrame)
      else script == MessageScript(st, q, e.msg.sub, e.msg.seqNo, e.msg.frame)
  {
    hide ReportAll, MessageScript, OnSubscribed, OnRequestError, OnSubFrame;
  }

  lemma FrameTold(st: State, e: Event, q: SubRef)
    requires Inv(st) && Rooted(st) && e.FrameEvent? && VisitsAll(st, e.order) && Current(st, q)
    ensures Told(st, FrameArrived(st, e.conn, e.msg, e.order), q, ScriptOf(st, e, q))
  {
    assert forall i :: 0 <= i < |e.order| ==> e.order[i] in st.recs;
    hide *;
    InvPeopled(st);
    InvOwners(st);
    FrameCases(st, e, q);
    if st.conn != Some(e.conn) {
      ScheduleCrowd(st);
      CrowdTold(st, st, q);
    } else if e.msg.Unreadable? {
      AllHearAgain(st, BadFrame, e.order, q);
    } else {
      MessageTold(st, e.conn, e.msg, e.order, q);
    }
  }

  /** Server subscriptions and requests lead to current subscriptions. */
  ghost predicate OwnersKnown(st: State) {
    && Rooted(st)
    && (forall sid :: sid in st.bySub ==>
          Current(st, st.bySub[sid]) && st.recs[st.bySub[sid]].sub == sid && Consistent(st.recs[st.bySub[sid]]))
    && (forall id :: id in st.pending ==> Current(st, st.pending[id].s) && Consistent(st.recs[st.pending[id].s]))
  }

  lemma InvOwners(st: State)
    requires Inv(st) && Rooted(st)
    ensures OwnersKnown(st)
  {
    InvPeopled(st);
    assert Routed(st.subs, st.recs, st.bySub, st.pending, st.requestSeq);
    hide Inv, AllPeopled, Consistent;
  }

  lemma MessageCases(st: State, conn: int, msg: Incoming, order: seq<SubRef>, q: SubRef)
    requires Rooted(st) && msg.Message? && q in st.recs && st.conn == Some(conn)
    requires forall i :: 0 <= i < |order| ==> order[i] in st.recs
    ensures var st', sid, frame := FrameArrived(st, conn, msg, order), msg.sub, msg.frame;
      var script := MessageScript(st, q, sid, msg.seqNo, frame);
      if frame.Subscribed? then
        st' == OnSubscribed(st, frame.id, sid) && script == MessageScript(st, q, sid, 0, frame)
      else if frame.Error? then
        st' == OnRequestError(st, conn, sid, frame.id, frame.code, order)
        && script == ErrorScript(st, q, sid, frame.id, frame.code)
      else if frame.SubscribeRefreshed? || frame.TokenExpiring? || (frame.Unsubscribed? && frame.id in st.unsubscribing)
      then SameCrowd(st, st') && script == Nothing
      else
        && st' == OnSubFrame(st, conn, sid, msg.seqNo, frame)
        && script == if sid in st.bySub && st.bySub[sid] == q then SubScript(st.recs[q], msg.seqNo, frame) else Nothing
  {
    hide OnSubscribed, OnRequestError, OnSubFrame, ErrorScript, SubScript, ReportAll;
  }

  lemma MessageTold(st: State, conn: int, msg: Incoming, order: seq<SubRef>, q: SubRef)
    requires AllPeopled(st) && OwnersKnown(st) && msg.Message? && VisitsAll(st, order) && Current(st, q)
    requires st.conn == Some(conn)
    ensures Told(st, FrameArrived(st, conn, msg, order), q, MessageScript(st, q, msg.sub, msg.seqNo, msg.frame))
  {
    assert forall i :: 0 <= i < |order| ==> order[i] in st.recs;
    assert msg.sub in st.bySub ==> Current(st, st.bySub[msg.sub]) && Consistent(st.recs[st.bySub[msg.sub]]);
    assert msg.frame.Subscribed? && msg.frame.id in st.pending ==> Current(st, st.pending[msg.frame.id].s);
    hide *;
    MessageCases(st, conn, msg, order, q);
    var frame := msg.frame;
    if frame.Subscribed? {
      SubscribedTold(st, frame.id, msg.sub, q);
    } else if frame.Error? {
      RequestErrorTold(st, conn, msg.sub, frame.id, frame.code, order, q);
    } else if frame.SubscribeRefreshed? || frame.TokenExpiring?
      || (frame.Unsubscribed? && frame.id in st.unsubscribing) {
      CrowdTold(st, FrameArrived(st, conn, msg, order), q);
    } else {
      SubFrameTold(st, conn, msg.sub, msg.seqNo, frame, q);
    }
  }

  // ---------- Every step ----------

  /** The steps that touch a consumer by itself. */
  predicate Personal(e: Event, c: ConsumerRef) {
    e == CloseEvent(c) || e == ReadEvent(c) || (e.RemoveEvent? && e.c == c)
  }

  /** Joining, leaving, closing and reading concern one consumer and tell the others nothing. */
  predicate Private(e: Event) {
    e.SubscribeEvent? || e.CloseEvent? || e.RemoveEvent? || e.ReadEvent?
  }

  lemma RetryFiredCrowd(st: State, r: SubRef, timer: Timer)
    requires r in st.recs
    ensures SameCrowd(st, RetryFired(st, r, timer))
  {
    var st1 := WithRec(st, r, st.recs[r].(retryTimer := None));
    EditCrowd(st, r, st.recs[r].(retryTimer := None));
    SubscribeCrowd(st1, timer.conn, r);
    ScheduleCrowd(st);
    hide SameCrowd, SubscribeServer;
    CrowdTrans(st, st1, SubscribeServer(st1, timer.conn, r));
  }

  lemma OpenCrowd(st: State)
    ensures SameCrowd(st.(reconnectTimer := None), Open(st.(reconnectTimer := None)))
    ensures SameCrowd(st, st.(reconnectTimer := None)) && SameCrowd(st, Open(st.(reconnectTimer := None)))
  {
    var st' := Open(st.(reconnectTimer := None));
    assert st'.subs == st.subs && st'.recs == st.recs && st'.consumers == st.consumers;
    hide Open;
  }

  lemma ReconnectCrowd(st: State, timer: int)
    ensures SameCrowd(st, ReconnectFired(st, timer))
  {
    OpenCrowd(st);
    ScheduleCrowd(st);
    hide SameCrowd, Open;
  }

  lemma TimerCases(st: State, e: Event)
    requires Enabled(st, e) && Rooted(st) && (e.ReconnectEvent? || e.RetryEvent?)
    ensures SameCrowd(st, Step(st, e))
  {
    hide RetryFired, ReconnectFired, SameCrowd, Rooted;
    if e.RetryEvent? { RetryFiredCrowd(st, e.r, e.timer); } else { ReconnectCrowd(st, e.timerId); }
  }

  lemma TimerTold(st: State, e: Event, q: SubRef)
    requires Inv(st) && Enabled(st, e) && Rooted(st) && Current(st, q) && (e.ReconnectEvent? || e.RetryEvent?)
    ensures Told(st, Step(st, e), q, Nothing)
  {
    assert q in st.recs;
    hide *;
    InvPeopled(st);
    TimerCases(st, e);
    CrowdTold(st, Step(st, e), q);
  }

  /** Every other step does what the table says, and nothing else. */
  lemma StepTold(st: State, e: Event, q: SubRef)
    requires Inv(st) && Enabled(st, e) && Rooted(st) && Current(st, q) && !Private(e)
    ensures Told(st, Step(st, e), q, ScriptOf(st, e, q))
  {
    InvPeopled(st);
    PendingCurrent(st);
    hide Inv, AllPeopled, Told, Rooted, Current, ConnectReturned, ReauthReturned, SubscribeTokenReturned,
    RefreshReturned,
      ReconnectFired, RetryFired, AckFired, FrameArrived, SocketClosed, VisitsAll, Consistent, MessageScript,
      TokenScript;
    match e
    case ConnectEvent(_, _, order) => VisitsRecs(st, order); ConnectTold(st, e, q);
    case ReauthEvent(_, _, order) => VisitsRecs(st, order); ReauthTold(st, e, q);
    case SubscribeTokenEvent(_, _, _, _) => SubscribeTokenTold(st, e, q);
    case RefreshTokenEvent(_, _, _, _) => RefreshTold(st, e, q);
    case ReconnectEvent(_) => TimerTold(st, e, q);
    case RetryEvent(_, _) => TimerTold(st, e, q);
    case AckEvent(_, _) => AckTold(st, e, q);
    case FrameEvent(_, _, _) => FrameTold(st, e, q);
    case ClosedEvent(_, _, _, order) => VisitsRecs(st, order); ClosedTold(st, e, q);
  }

  lemma PendingCurrent(st: State)
    requires Inv(st)
    ensures forall r, id :: AwaitsToken(st, r, id) ==> Current(st, r)
  {
    assert Routed(st.subs, st.recs, st.bySub, st.pending, st.requestSeq);
    hide Inv;
  }
}
