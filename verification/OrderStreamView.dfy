/**
 The view every subscription shows, against a server that knows the live view
 at each of its cursors.

 A `Server` is everything the server will ever say: the live view of each
 account at each cursor, and for each server subscription where it starts and
 the data frames it sends, in order. Frames of it may arrive late, twice, out
 of order or never.
 */
module OrderStreamView {
  import opened Basics
  import opened OrderStreamModel
  import opened OrderStreamInvariant
  import opened OrderStreamFrames
  import opened OrderStreamControl
  import opened OrderStreamSteps
  import opened OrderStreamOnward

  datatype Stream = Stream(account: Account, start: Cursor, frames: seq<Frame>)

  datatype Position = Position(account: Account, cursor: Cursor)

  datatype Server = Server(views: map<Position, OrderMap>, streams: map<ServerSub, Stream>)

  /** Where a subscription stands after some of its frames. */
  datatype Standing = At(view: OrderMap) | InSnapshot(staged: seq<Order>) | Adrift

  function Advance(at: Standing, frame: Frame): Standing {
    match frame
    case SnapshotBegin => InSnapshot([])
    case SnapshotPage(orders) => if at.InSnapshot? then InSnapshot(at.staged + orders) else at
    case SnapshotEnd(count, _) =>
      if at.InSnapshot? && |at.staged| == count then At(Upsert(map[], at.staged)) else Adrift
    case UnitFrame(changed, removed, _) => if at.At? then At(ApplyUnit(at.view, changed, removed)) else at
    case ResyncRequired => Adrift
    case _ => at
  }

  function After(start: Standing, frames: seq<Frame>): Standing {
    if frames == [] then start else Advance(After(start, Init(frames)), Last(frames))
  }

  predicate ViewAt(w: Server, account: Account, cursor: Cursor, view: OrderMap) {
    cursor != 0 ==> Position(account, cursor) in w.views && w.views[Position(account, cursor)] == view
  }

  /** A frame tells the truth about the view its cursor names; units and covers come only at a known view. */
  predicate Truthful(w: Server, account: Account, at: Standing, frame: Frame) {
    match frame
    case SnapshotEnd(count, cursor) =>
      at.InSnapshot? && |at.staged| == count ==> ViewAt(w, account, cursor, Upsert(map[], at.staged))
    case UnitFrame(changed, removed, next) => at.At? && ViewAt(w, account, next, ApplyUnit(at.view, changed, removed))
    case Covered(cursor) => at.At? && ViewAt(w, account, cursor, at.view)
    case _ => true
  }

  function StartOf(w: Server, s: Stream): Standing {
    if s.start != 0 && Position(s.account, s.start) in w.views then At(w.views[Position(s.account, s.start)])
      else Adrift
  }

  ghost predicate Honest(w: Server) {
    forall sid, k :: sid in w.streams && 0 <= k < |w.streams[sid].frames| ==>
      Truthful(w, w.streams[sid].account, After(StartOf(w, w.streams[sid]), w.streams[sid].frames[..k]),
        w.streams[sid].frames[k])
  }

  // ---------- What the server sends ----------

  /** Frames that concern a subscription but carry none of its data. */
  predicate Unnumbered(frame: Frame) {
    frame.SubscribeExpiring? || frame.Unsubscribed? || frame.UnknownFrame?
  }

  /** A confirmation starts the subscription that was asked for; a data frame is the one the server numbered so. */
  ghost predicate FrameKept(w: Server, st: State, msg: Incoming)
    requires msg.Message?
  {
    match msg.frame
    case Subscribed(id) =>
      Awaited(st, id) ==>
        && id in st.sent && msg.sub in w.streams
        && w.streams[msg.sub].account == st.sent[id].account && w.streams[msg.sub].start == st.sent[id].cursor
    case SubscribeRefreshed(_) => true
    case Error(_, _) => true
    case TokenExpiring => true
    case _ =>
      msg.sub in st.bySub && msg.sub in w.streams ==>
        if msg.seqNo <= 0 then Unnumbered(msg.frame)
        else msg.seqNo <= |w.streams[msg.sub].frames| && w.streams[msg.sub].frames[msg.seqNo - 1] == msg.frame
  }

  predicate Awaited(st: State, id: RequestId) {
    id in st.pending && st.pending[id].kind == RequestSubscribe
  }

  ghost predicate DataKept(w: Server, st: State, e: Event) {
    e.FrameEvent? && e.msg.Message? && st.conn == Some(e.conn) ==> FrameKept(w, st, e.msg)
  }

  // ---------- What the client shows ----------

  predicate Tracks(s: Sub, at: Standing) {
    match at
    case At(view) => s.orders == Some(view) && !s.staging
    case InSnapshot(staged) => s.staging && s.staged == staged
    case Adrift => !s.staging
  }

  /** What the server last said about the view being unavailable. */
  datatype Notice = Notice(stale: bool, reason: int, orderIds: seq<int>)

  function LastNotice(frames: seq<Frame>): Notice {
    if frames == [] then Notice(false, 0, [])
    else match Last(frames)
      case Unavailable(reason, ids) => Notice(true, reason, ids)
      case Available => Notice(false, 0, [])
      case _ => LastNotice(Init(frames))
  }

  /**
   A subscription is stale, for the reason and the orders of the last notice, and ready exactly once it was
   told so.
   */
  ghost predicate AsTold(s: Sub, frames: seq<Frame>) {
    && Notice(s.stale, s.staleReason, s.staleOrderIds) == LastNotice(frames)
    && (s.ready <==> ReadyFrame in frames)
  }

  ghost predicate ViewOk(w: Server, s: Sub) {
    && (s.cursor != 0 ==>
      Position(s.account, s.cursor) in w.views && s.orders == Some(w.views[Position(s.account, s.cursor)]))
    && (s.sub != 0 ==>
          && s.sub in w.streams && w.streams[s.sub].account == s.account
          && 0 <= s.seqNo <= |w.streams[s.sub].frames|
          && Tracks(s, After(StartOf(w, w.streams[s.sub]), w.streams[s.sub].frames[..s.seqNo]))
          && AsTold(s, w.streams[s.sub].frames[..s.seqNo]))
  }

  ghost predicate ViewInv(w: Server, st: State) {
    forall r :: r in st.recs ==> ViewOk(w, st.recs[r])
  }

  lemma OnwardView(w: Server, st: State, st': State)
    requires ViewInv(w, st) && Onward(st, st')
    ensures ViewInv(w, st')
  {
    forall r | r in st'.recs ensures ViewOk(w, st'.recs[r]) {
      assert Quiet(st.recs[r], st'.recs[r]);
    }
  }

  // ---------- One data frame ----------

  /** What processing a data frame does to the record before consumers are told. */
  function Absorb(s: Sub, frame: Frame): Sub {
    match frame
    case SnapshotBegin => s.(staging := true, staged := [])
    case SnapshotPage(orders) => if s.staging then s.(staged := s.staged + orders) else s
    case SnapshotEnd(count, cursor) =>
      if !s.staging || |s.staged| != count then s.(staging := false, staged := [], cursor := 0)
        else SnapshotRec(s, cursor)
    case UnitFrame(changed, removed, next) => UnitRec(s, changed, removed, next)
    case Covered(cursor) => s.(cursor := cursor, retries := 0)
    case ReadyFrame => s.(retries := 0, ready := true)
    case ResyncRequired => s.(staging := false, staged := [])
    case Unavailable(reason, ids) => s.(stale := true, staleReason := reason, staleOrderIds := ids)
    case Available => FreshRec(s)
    case _ => s
  }

  /** Processing the next frame of a subscription keeps its record in step with the server. */
  lemma AbsorbTracks(w: Server, s: Sub, frame: Frame)
    requires Honest(w) && ViewOk(w, s) && s.sub != 0
    requires s.seqNo < |w.streams[s.sub].frames| && w.streams[s.sub].frames[s.seqNo] == frame
    ensures ViewOk(w, Absorb(s.(seqNo := s.seqNo + 1), frame))
  {
    var stream := w.streams[s.sub];
    var at := After(StartOf(w, stream), stream.frames[..s.seqNo]);
    assert Truthful(w, stream.account, at, frame);
    assert Init(stream.frames[..s.seqNo + 1]) == stream.frames[..s.seqNo];
    assert After(StartOf(w, stream), stream.frames[..s.seqNo + 1]) == Advance(at, frame);
    assert AsTold(s.(seqNo := s.seqNo + 1), stream.frames[..s.seqNo]);
    hide Absorb, Advance, Truthful, Tracks, Honest, StartOf, AsTold;
    FrameTracks(w, s.(seqNo := s.seqNo + 1), at, frame);
    FrameTells(s.(seqNo := s.seqNo + 1), stream.frames, s.seqNo);
  }

  lemma FrameTells(s: Sub, frames: seq<Frame>, k: nat)
    requires k < |frames| && AsTold(s, frames[..k])
    ensures AsTold(Absorb(s, frames[k]), frames[..k + 1])
  {
    assert Init(frames[..k + 1]) == frames[..k] && frames[..k + 1] == frames[..k] + [frames[k]];
  }

  lemma FrameTracks(w: Server, s: Sub, at: Standing, frame: Frame)
    requires s.cursor != 0 ==>
      Position(s.account, s.cursor) in w.views && s.orders == Some(w.views[Position(s.account, s.cursor)])
    requires Tracks(s, at) && Truthful(w, s.account, at, frame)
    ensures var s' := Absorb(s, frame);
      && s'.account == s.account && s'.sub == s.sub && s'.seqNo == s.seqNo && Tracks(s', Advance(at, frame))
      && (s'.cursor != 0 ==>
        Position(s'.account, s'.cursor) in w.views && s'.orders == Some(w.views[Position(s'.account, s'.cursor)]))
  {
    hide Upsert, ApplyUnit;
  }

  lemma UnnumberedOk(w: Server, s: Sub, frame: Frame)
    requires ViewOk(w, s) && Unnumbered(frame)
    ensures Absorb(s, frame) == s
  {
  }

  /** Whatever else `Process` does comes after the record has absorbed the frame. */
  lemma ProcessAbsorbs(st: State, conn: int, r: SubRef, frame: Frame)
    requires r in st.recs
    ensures Onward(WithRec(st, r, Absorb(st.recs[r], frame)), Process(st, conn, r, frame))
  {
    hide Onward, Absorb, Process;
    if frame.SnapshotEnd? {
      EndAbsorbs(st, conn, r, frame.count, frame.cursor);
    } else if Announced(frame) {
      AnnouncedAbsorbs(st, conn, r, frame);
    } else {
      OtherAbsorbs(st, conn, r, frame);
    }
  }

  lemma EndAbsorbs(st: State, conn: int, r: SubRef, count: int, cursor: Cursor)
    requires r in st.recs
    ensures var frame := SnapshotEnd(count, cursor);
      Onward(WithRec(st, r, Absorb(st.recs[r], frame)), Process(st, conn, r, frame))
  {
    hide Onward, Offer, Resubscribe;
    var s := st.recs[r];
    var st1 := WithRec(st, r, Absorb(s, SnapshotEnd(count, cursor)));
    if !s.staging || |s.staged| != count { ResubscribeOnward(st1, conn, r); }
    else { OfferOnward(st1, r, s.consumers, Snapshot(s.staged)); }
  }

  lemma AnnouncedAbsorbs(st: State, conn: int, r: SubRef, frame: Frame)
    requires r in st.recs && Announced(frame)
    ensures Onward(WithRec(st, r, Absorb(st.recs[r], frame)), Process(st, conn, r, frame))
  {
    hide Onward, Offer;
    var s := st.recs[r];
    var st1 := WithRec(st, r, Absorb(s, frame));
    assert Absorb(s, frame) == s ==> st1 == st;
    match frame
    case UnitFrame(changed, removed, next) => OfferOnward(st1, r, s.consumers, Unit(changed, removed));
    case ReadyFrame =>
      if s.ready { SameOnward(st1, Process(st, conn, r, frame)); }
      else { OfferOnward(st1, r, s.consumers, Ready); }
    case Unavailable(reason, ids) => OfferOnward(st1, r, s.consumers, Stale(true, reason, ids));
    case Available => OfferOnward(st1, r, s.consumers, Stale(false, 0, []));
  }

  lemma OtherAbsorbs(st: State, conn: int, r: SubRef, frame: Frame)
    requires r in st.recs && !frame.SnapshotEnd? && !Announced(frame)
    ensures Onward(WithRec(st, r, Absorb(st.recs[r], frame)), Process(st, conn, r, frame))
  {
    hide Onward, ServerEnded;
    var s := st.recs[r];
    var st1 := WithRec(st, r, Absorb(s, frame));
    assert Absorb(s, frame) == s ==> st1 == st;
    if frame.Unsubscribed? { ServerEndedOnward(st, conn, r); }
    else { SameOnward(st1, Process(st, conn, r, frame)); }
  }

  /** A processed frame leaves every record a view the server vouches for. */
  lemma ProcessView(w: Server, st: State, conn: int, r: SubRef, s: Sub, frame: Frame)
    requires ViewInv(w, st) && r in st.recs && ViewOk(w, Absorb(s, frame))
    ensures ViewInv(w, Process(WithRec(st, r, s), conn, r, frame))
    ensures Moved(st, Process(WithRec(st, r, s), conn, r, frame))
  {
    var st1 := WithRec(WithRec(st, r, s), r, Absorb(s, frame));
    assert ViewInv(w, st1);
    ProcessAbsorbs(WithRec(st, r, s), conn, r, frame);
    OnwardView(w, st1, Process(WithRec(st, r, s), conn, r, frame));
  }

  lemma SubFrameView(w: Server, st: State, conn: int, sid: ServerSub, seqNo: int, frame: Frame)
    requires Rooted(st) && Honest(w) && ViewInv(w, st)
    requires sid in st.bySub ==> st.recs[st.bySub[sid]].sub == sid && sid != 0
    requires sid in st.bySub && sid in w.streams ==>
      if seqNo <= 0 then Unnumbered(frame)
      else seqNo <= |w.streams[sid].frames| && w.streams[sid].frames[seqNo - 1] == frame
    ensures ViewInv(w, OnSubFrame(st, conn, sid, seqNo, frame))
    ensures Moved(st, OnSubFrame(st, conn, sid, seqNo, frame))
  {
    if sid in st.bySub {
      var r := st.bySub[sid];
      if seqNo > 0 && seqNo != st.recs[r].seqNo + 1 {
        ResubscribeOnward(st, conn, r);
        OnwardView(w, st, Resubscribe(st, conn, r));
      } else if seqNo > 0 {
        AbsorbTracks(w, st.recs[r], frame);
        ProcessView(w, st, conn, r, st.recs[r].(seqNo := seqNo), frame);
      } else {
        UnnumberedOk(w, st.recs[r], frame);
        ProcessView(w, st, conn, r, st.recs[r], frame);
      }
    }
  }

  // ---------- The other sections ----------

  /** A subscription just confirmed stands where it asked to start, with nothing said of it yet. */
  lemma ConfirmedView(w: Server, st: State, id: RequestId, sid: ServerSub)
    requires Inv(st) && Rooted(st) && ViewInv(w, st)
    requires Awaited(st, id) && id in st.sent && sid in w.streams
    requires w.streams[sid].account == st.sent[id].account && w.streams[sid].start == st.sent[id].cursor
    ensures var r, st1 := st.pending[id].s, Confirmed(st, id, sid);
      && ViewInv(w, WithRec(st1, r, FreshRec(st1.recs[r])))
      && (!st1.recs[r].stale ==> FreshRec(st1.recs[r]) == st1.recs[r])
      && st1.maxQueue == st.maxQueue && st1.consumers == st.consumers
  {
    hide Owned, Queued, Agrees;
    var r := st.pending[id].s;
    assert Current(st, r) && Settled(st, r) && Awaits(st, id, r);
    assert w.streams[sid].frames[..0] == [];
  }

  lemma ConfirmedOnward(st1: State, r: SubRef)
    requires r in st1.recs && (!st1.recs[r].stale ==> FreshRec(st1.recs[r]) == st1.recs[r])
    ensures Onward(WithRec(st1, r, FreshRec(st1.recs[r])), NotifyFresh(NotifyConnected(st1, r), r))
  {
    hide *;
    NotifyOnward(st1, r);
    FreshOnward(st1, NotifyConnected(st1, r), r);
  }

  lemma StrayCases(st: State, id: RequestId, sid: ServerSub)
    requires Rooted(st) && !Awaited(st, id)
    ensures OnSubscribed(st, id, sid) == if sid != 0 then Unsubscribe(st) else st
  {
    hide Unsubscribe;
  }

  lemma StrayView(w: Server, st: State, id: RequestId, sid: ServerSub)
    requires Rooted(st) && ViewInv(w, st) && !Awaited(st, id)
    ensures ViewInv(w, OnSubscribed(st, id, sid)) && Moved(st, OnSubscribed(st, id, sid))
  {
    hide *;
    StrayCases(st, id, sid);
    SameView(w, st, st);
    SameView(w, st, Unsubscribe(st));
  }

  lemma SameView(w: Server, st: State, st': State)
    requires ViewInv(w, st) && (st' == st || st' == Unsubscribe(st))
    ensures ViewInv(w, st') && Moved(st, st')
  {
  }

  lemma OnwardSince(st: State, mid: State, st': State)
    requires Onward(mid, st') && mid.consumers == st.consumers && mid.maxQueue == st.maxQueue
    ensures Moved(st, st')
  {
  }

  lemma SubscribedView(w: Server, st: State, id: RequestId, sid: ServerSub)
    requires Inv(st) && Rooted(st) && ViewInv(w, st)
    requires Awaited(st, id) ==>
      && id in st.sent && sid in w.streams
      && w.streams[sid].account == st.sent[id].account && w.streams[sid].start == st.sent[id].cursor
    ensures ViewInv(w, OnSubscribed(st, id, sid))
    ensures Moved(st, OnSubscribed(st, id, sid))
  {
    if Awaited(st, id) {
      var r := st.pending[id].s;
      assert r in st.recs && st.pending[id].kind == RequestSubscribe;
      var st1 := Confirmed(st, id, sid);
      hide Inv, ViewInv, Rooted, Confirmed, Onward, Moved, NotifyFresh, NotifyConnected, OnSubscribed;
      SubscribedInOrder(st, id, sid);
      ConfirmedView(w, st, id, sid);
      ConfirmedOnward(st1, r);
      OnwardView(w, WithRec(st1, r, FreshRec(st1.recs[r])), OnSubscribed(st, id, sid));
      OnwardSince(st, WithRec(st1, r, FreshRec(st1.recs[r])), OnSubscribed(st, id, sid));
    } else {
      hide *;
      StrayView(w, st, id, sid);
    }
  }

  /** A frame that carries no subscription's data. */
  predicate IsControl(st: State, msg: Incoming) {
    || msg.Unreadable?
    || msg.frame.SubscribeRefreshed? || msg.frame.Error? || msg.frame.TokenExpiring?
    || (msg.frame.Unsubscribed? && msg.frame.id in st.unsubscribing)
  }

  lemma ControlFrameOnward(st: State, conn: int, msg: Incoming, order: seq<SubRef>)
    requires Rooted(st) && IsControl(st, msg) && (forall i :: 0 <= i < |order| ==> order[i] in st.recs)
    ensures Onward(st, FrameArrived(st, conn, msg, order))
  {
    hide Onward, OnRequestError, ReportAll;
    if st.conn == Some(conn) && msg.Unreadable? {
      ReportAllOnward(st, BadFrame, order);
    } else if st.conn == Some(conn) && msg.frame.Error? {
      RequestErrorOnward(st, conn, msg.sub, msg.frame.id, msg.frame.code, order);
    } else {
      SameOnward(st, FrameArrived(st, conn, msg, order));
    }
  }

  lemma FrameView(w: Server, st: State, conn: int, msg: Incoming, order: seq<SubRef>)
    requires Inv(st) && Rooted(st) && Honest(w) && ViewInv(w, st)
    requires forall i :: 0 <= i < |order| ==> order[i] in st.recs
    requires st.conn == Some(conn) && msg.Message? ==> FrameKept(w, st, msg)
    ensures ViewInv(w, FrameArrived(st, conn, msg, order))
    ensures Moved(st, FrameArrived(st, conn, msg, order))
  {
    SameOnward(st, st);
    OnwardMoved(st, st);
    if st.conn == Some(conn) {
      if IsControl(st, msg) {
        hide Inv, Honest, FrameKept, ViewInv, FrameArrived, Onward, Moved;
        ControlFrameOnward(st, conn, msg, order);
        OnwardView(w, st, FrameArrived(st, conn, msg, order));
        OnwardMoved(st, FrameArrived(st, conn, msg, order));
      } else if msg.frame.Subscribed? {
        hide Inv, Honest, ViewInv, OnSubscribed, Onward, Moved;
        SubscribedView(w, st, msg.frame.id, msg.sub);
      } else {
        DataFrameView(w, st, conn, msg, order);
      }
    }
  }

  lemma DataFrameView(w: Server, st: State, conn: int, msg: Incoming, order: seq<SubRef>)
    requires Inv(st) && Rooted(st) && Honest(w) && ViewInv(w, st) && st.conn == Some(conn)
    requires forall i :: 0 <= i < |order| ==> order[i] in st.recs
    requires !IsControl(st, msg) && !msg.frame.Subscribed? && FrameKept(w, st, msg)
    ensures ViewInv(w, FrameArrived(st, conn, msg, order))
    ensures Moved(st, FrameArrived(st, conn, msg, order))
  {
    if msg.sub in st.bySub { LiveSub(st, msg.sub); }
    hide Inv, Honest, ViewInv, OnSubFrame, Onward, Moved;
    assert FrameArrived(st, conn, msg, order) == OnSubFrame(st, conn, msg.sub, msg.seqNo, msg.frame);
    SubFrameView(w, st, conn, msg.sub, msg.seqNo, msg.frame);
  }

  lemma OnwardMoved(st: State, st': State)
    requires Onward(st, st')
    ensures Moved(st, st')
  {
  }

  lemma SubscribeView(w: Server, st: State, account: Account, c: ConsumerRef, r: SubRef)
    requires Rooted(st) && ViewInv(w, st) && r !in st.recs && c !in st.consumers
    ensures ViewInv(w, SubscribeCall(st, account, c, r))
    ensures Moved(st, SubscribeCall(st, account, c, r))
  {
    var st1 := Join(st, account, c, r);
    JoinView(w, st, account, c, r);
    if account in st.subs {
      var q := st.subs[account];
      OfferEachOnward(st1, q, c, CatchUpEvents(st1.recs[q]));
      OnwardView(w, st1, CatchUp(st1, q, c));
      assert Moved(st1, CatchUp(st1, q, c));
    }
  }

  lemma JoinView(w: Server, st: State, account: Account, c: ConsumerRef, r: SubRef)
    requires Rooted(st) && ViewInv(w, st) && r !in st.recs && c !in st.consumers
    ensures ViewInv(w, Join(st, account, c, r))
    ensures Moved(st, Join(st, account, c, r))
    ensures forall x :: x in st.consumers ==>
      x in Join(st, account, c, r).consumers && Join(st, account, c, r).consumers[x] == st.consumers[x]
  {
  }

  // ---------- Every step, every run ----------

  lemma StepView(w: Server, st: State, e: Event)
    requires Inv(st) && Enabled(st, e) && Rooted(st) && DataKept(w, st, e)
    requires Honest(w) && ViewInv(w, st)
    ensures ViewInv(w, Step(st, e))
    ensures Moved(st, Step(st, e))
  {
    if e.SubscribeEvent? {
      SubscribeView(w, st, e.account, e.c, e.r);
    } else if e.FrameEvent? {
      FrameView(w, st, e.conn, e.msg, e.order);
    } else {
      StepOnward(st, e);
      OnwardView(w, st, Step(st, e));
    }
  }

  /** What happens in a run: enabled events, from a server that keeps its side. */
  ghost predicate Admissible(w: Server, st: State, e: Event) {
    Enabled(st, e) && Rooted(st) && ServerKeeps(st, e) && DataKept(w, st, e)
  }

  /** The state after a run; an event that is not admissible ends what is claimed of it. */
  ghost function Exec(w: Server, maxQueue: int, events: seq<Event>): State {
    if events == [] then InitialState(maxQueue)
    else
      var st := Exec(w, maxQueue, Init(events));
      if Admissible(w, st, Last(events)) then Step(st, Last(events)) else st
  }

  /** Every run, however its sections interleave, ends in a state that keeps the books and shows true views. */
  lemma {:induction false} RunKeeps(w: Server, maxQueue: int, events: seq<Event>)
    requires Honest(w) && maxQueue > 0
    ensures Inv(Exec(w, maxQueue, events)) && ViewInv(w, Exec(w, maxQueue, events))
  {
    if events == [] {
      InitialInv(maxQueue);
    } else {
      var st := Exec(w, maxQueue, Init(events));
      RunKeeps(w, maxQueue, Init(events));
      if Admissible(w, st, Last(events)) {
        StepKeeps(st, Last(events));
        StepView(w, st, Last(events));
      }
    }
  }

  /** The invariant never blocks the stream: its pointers are allocated in every reachable state. */
  lemma RunRooted(w: Server, maxQueue: int, events: seq<Event>)
    requires Honest(w) && maxQueue > 0
    ensures Rooted(Exec(w, maxQueue, events))
  {
    RunKeeps(w, maxQueue, events);
    CoreRooted(Exec(w, maxQueue, events));
  }
}
