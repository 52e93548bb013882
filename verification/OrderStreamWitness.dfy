/**
 A run of the private order stream, event by event, from an honest server. It
 reaches a position, so the premises of the view refinement can be met, and it
 ends with a refresh pending while the subscription waits for a subscribe of
 its own: where an error that does not name the refreshed subscription makes
 the client subscribe twice.
 */
module OrderStreamWitness {
  import opened Basics
  import M = OrderStreamModel
  import opened OrderStreamModel
  import opened OrderStreamInvariant
  import opened OrderStreamOwned
  import opened OrderStreamControl
  import opened OrderStreamSteps
  import opened OrderStreamView
  import opened OrderStreamTheorems

  const A := Account(1)
  const R := SubRef(1)
  const C := ConsumerRef(1)
  const OPEN_ORDER := Order(1, 10)
  const MAX_QUEUE := 1000

  // ---------- The server ----------

  /** One subscription: a snapshot of one open order at cursor 5, then two frames of which the first gets lost. */
  function FirstStream(): Stream {
    Stream(A, 0, [SnapshotBegin, SnapshotPage([OPEN_ORDER]), SnapshotEnd(1, 5), Available, ReadyFrame])
  }

  function View(): OrderMap {
    map[1 := OPEN_ORDER]
  }

  lemma ViewUpserted()
    ensures Upsert(map[], [OPEN_ORDER]) == View()
  {
    assert Init([OPEN_ORDER]) == [] && Upsert(map[], []) == map[];
  }

  function W(): Server {
    Server(map[Position(A, 5) := View()], map[7 := FirstStream()])
  }

  /** Where the subscription stands after its first frames. */
  lemma Standings()
    ensures var s := FirstStream();
      && After(StartOf(W(), s), s.frames[..0]) == Adrift
      && After(StartOf(W(), s), s.frames[..1]) == InSnapshot([])
      && After(StartOf(W(), s), s.frames[..2]) == InSnapshot([OPEN_ORDER])
  {
    var s, start := FirstStream(), StartOf(W(), FirstStream());
    assert start == Adrift;
    hide W, StartOf;
    OneMore(start, s.frames, 0);
    OneMore(start, s.frames, 1);
    assert [] + [OPEN_ORDER] == [OPEN_ORDER];
    assert s.frames[..0] == [];
  }

  lemma OneMore(start: Standing, frames: seq<Frame>, k: nat)
    requires k < |frames|
    ensures After(start, frames[..k + 1]) == Advance(After(start, frames[..k]), frames[k])
  {
    hide Advance;
    assert Init(frames[..k + 1]) == frames[..k];
  }

  /** Each frame tells the truth. */
  lemma StandsAt(k: nat)
    requires k < |FirstStream().frames|
    ensures Truthful(W(), A, After(StartOf(W(), FirstStream()), FirstStream().frames[..k]), FirstStream().frames[k])
  {
    ViewUpserted();
    Standings();
    hide Upsert, After, StartOf;
  }

  lemma ServerHonest()
    ensures Honest(W())
  {
    forall sid, k | sid in W().streams && 0 <= k < |W().streams[sid].frames|
      ensures Truthful(W(), W().streams[sid].account,
        After(StartOf(W(), W().streams[sid]), W().streams[sid].frames[..k]),
                       W().streams[sid].frames[k])
    {
      assert sid == 7;
      StandsAt(k);
    }
  }

  // ---------- The states it passes through ----------

  /** One account, one subscription, one consumer that has read nothing. */
  function St(s: Sub, log: seq<StreamEvent>, pending: map<RequestId, Request>, bySub: map<ServerSub, SubRef>,
              unsubscribing: set<RequestId>, conn: Option<int>, requestSeq: int, timerSeq: int, tasks: set<Task>,
              sent: map<RequestId, M.Subscribe>): State
  {
    State(MAX_QUEUE, map[A := R], map[R := s], map[C := Listener(log)], pending, bySub, unsubscribing,
          Some(1), conn, conn.None?, conn.Some?, 0, None, requestSeq, 1, if conn.Some? then 1
            else 0, timerSeq, tasks, sent)
  }

  function Listener(log: seq<StreamEvent>): Consumer {
    Consumer(R, false, false, log, 0, None)
  }

  function NewSub(): Sub {
    NewRec.(account := A, consumers := {C})
  }

  function LiveSub(): Sub {
    NewSub().(sub := 7, confirmed := true, state := SubConnected)
  }

  function ShownSub(): Sub {
    LiveSub().(seqNo := 3, cursor := 5, orders := Some(View()))
  }

  function LostSub(): Sub {
    DroppedRec(ShownSub()).(retries := 1, state := SubDisconnected)
  }

  function Written(): map<RequestId, M.Subscribe> {
    map[1 := M.Subscribe(A, 0)]
  }

  function Connecting(): State {
    St(NewSub(), [], map[], map[], {}, None, 0, 0, {ConnectTask(1)}, map[])
  }

  function Subscribing(): State {
    St(NewSub(), [], map[1 := Request(RequestSubscribe, R)], map[], {}, Some(0), 1, 0, {SubscribeTask(0, R, 1)}, map[])
  }

  function Confirming(): State {
    St(NewSub().(ackTimer := Some(Timer(0, 0, 1))), [], map[1 := Request(RequestSubscribe, R)], map[], {}, Some(0), 1,
      1, {}, Written())
  }

  function Online(s: Sub, log: seq<StreamEvent>, tasks: set<Task>): State {
    St(s, log, map[], map[7 := R], {}, Some(0), 1, 1, tasks, Written())
  }

  function Shown(tasks: set<Task>): State {
    Online(ShownSub(), [Connected, Snapshot([OPEN_ORDER])], tasks)
  }

  function Refreshing(): State {
    St(ShownSub(), [Connected, Snapshot([OPEN_ORDER])], map[2 := Request(RequestRefresh, R)], map[7 := R], {},
      Some(0), 2, 1, {}, Written())
  }

  function Lost(): State {
    St(LostSub(), [Connected, Snapshot([OPEN_ORDER]), Disconnected],
       map[2 := Request(RequestRefresh, R), 4 := Request(RequestSubscribe, R)], map[], {3}, Some(0), 4, 1,
       {SubscribeTask(0, R, 4)}, Written())
  }

  // ---------- Its steps ----------

  ghost predicate Leads(st: State, e: Event, st': State) {
    Admissible(W(), st, e) && Step(st, e) == st'
  }

  function Data(seqNo: int, frame: Frame): Event {
    FrameEvent(0, Message(7, seqNo, frame), [R])
  }

  lemma OneSubscription(st: State)
    requires st.subs == map[A := R] && R in st.recs
    ensures VisitsAll(st, [R])
  {
    assert st.subs.Values == {R} by {
      assert A in st.subs && st.subs[A] == R;
    }
  }

  /** The server may say it: a frame of its stream, or one that carries no data. */
  lemma Admitted(st: State, seqNo: int, frame: Frame)
    requires st.subs == map[A := R] && Rooted(st) && st.conn == Some(0)
    requires (Unnumbered(frame) && !frame.Unsubscribed? && seqNo == 0) ||
             (1 <= seqNo <= |FirstStream().frames| && FirstStream().frames[seqNo - 1] == frame)
    ensures Admissible(W(), st, Data(seqNo, frame))
    ensures Step(st, Data(seqNo, frame)) == OnSubFrame(st, 0, 7, seqNo, frame)
  {
    assert A in st.subs;
    OneSubscription(st);
    hide OnSubFrame;
  }

  /** The consumer has room: it is told. */
  lemma Told(st: State, log: seq<StreamEvent>, event: StreamEvent)
    requires R in st.recs && st.recs[R].consumers == {C} && st.consumers == map[C := Listener(log)]
      && |log| < st.maxQueue
    ensures Deliver(st, R, event) == st.(consumers := map[C := Listener(log + [event])])
  {
    OfferWithRoom(st, R, C, event);
    hide Offer;
    assert map[C := Listener(log)][C := Listener(log + [event])] == map[C := Listener(log + [event])];
  }

  lemma Subscribes()
    ensures Leads(InitialState(MAX_QUEUE), SubscribeEvent(A, C, R), Connecting())
  {
    var st := Join(InitialState(MAX_QUEUE), A, C, R);
    assert st.recs == map[R := NewSub()] by { assert {} + {C} == {C}; }
    assert {} + {ConnectTask(1)} == {ConnectTask(1)};
  }

  lemma Connects()
    ensures Leads(Connecting(), ConnectEvent(1, Token, [R]), Subscribing())
  {
    var st := Connecting();
    OneSubscription(st);
    assert st.tasks - {ConnectTask(1)} == {};
    var st1 := st.(tasks := {}, connecting := false, conn := Some(0), connSeq := 1, authSent := true);
    assert Init([R]) == [] && SubscribeAll(st1, 0, []) == st1;
    assert SubscribeAll(st1, 0, [R]) == SubscribeServer(st1, 0, R);
    assert {} + {SubscribeTask(0, R, 1)} == {SubscribeTask(0, R, 1)};
  }

  lemma Writes()
    ensures Leads(Subscribing(), SubscribeTokenEvent(0, R, 1, Token), Confirming())
  {
    assert Subscribing().tasks - {SubscribeTask(0, R, 1)} == {};
  }

  function JustConfirmed(): State {
    St(LiveSub().(state := SubPending), [], map[], map[7 := R], {}, Some(0), 1, 1, {}, Written())
  }

  lemma ConnectedTold()
    ensures Confirmed(Confirming(), 1, 7) == JustConfirmed()
    ensures NotifyConnected(JustConfirmed(), R) == Online(LiveSub(), [Connected], {})
  {
    Told(WithState(JustConfirmed(), R, SubConnected), [], Connected);
    hide Deliver;
    assert [] + [Connected] == [Connected];
  }

  lemma Confirms()
    ensures Leads(Confirming(), FrameEvent(0, Message(7, 0, Subscribed(1)), [R]), Online(LiveSub(), [Connected], {}))
  {
    ConfirmationAdmitted();
    ConfirmationStep();
    SubscribedInOrder(Confirming(), 1, 7);
    ConnectedTold();
    hide Admissible, FrameArrived, OnSubscribed, Confirmed, NotifyConnected, JustConfirmed;
  }

  lemma ConfirmationAdmitted()
    ensures Admissible(W(), Confirming(), FrameEvent(0, Message(7, 0, Subscribed(1)), [R]))
  {
    OneSubscription(Confirming());
    ConfirmationKept();
    hide ControlKept, FrameKept, VisitsAll, Confirming, Rooted, W;
  }

  lemma ConfirmationStep()
    ensures Rooted(Confirming())
    ensures FrameArrived(Confirming(), 0, Message(7, 0, Subscribed(1)), [R]) == OnSubscribed(Confirming(), 1, 7)
  {
    hide OnSubscribed;
  }

  lemma ConfirmationKept()
    ensures Rooted(Confirming())
    ensures ControlKept(Confirming(), Message(7, 0, Subscribed(1)))
      && FrameKept(W(), Confirming(), Message(7, 0, Subscribed(1)))
  {
  }

  lemma Begins()
    ensures Leads(Online(LiveSub(), [Connected], {}), Data(1, SnapshotBegin),
                  Online(LiveSub().(seqNo := 1, staging := true), [Connected], {}))
  {
    Admitted(Online(LiveSub(), [Connected], {}), 1, SnapshotBegin);
    hide Admissible, Step;
  }

  lemma Pages()
    ensures Leads(Online(LiveSub().(seqNo := 1, staging := true), [Connected], {}), Data(2, SnapshotPage([OPEN_ORDER])),
                  Online(LiveSub().(seqNo := 2, staging := true, staged := [OPEN_ORDER]), [Connected], {}))
  {
    Admitted(Online(LiveSub().(seqNo := 1, staging := true), [Connected], {}), 2, SnapshotPage([OPEN_ORDER]));
    hide Admissible, Step;
    assert [] + [OPEN_ORDER] == [OPEN_ORDER];
  }

  lemma SnapshotTold()
    ensures var s := LiveSub().(seqNo := 3, staging := true, staged := [OPEN_ORDER]);
      EndSnapshot(Online(s, [Connected], {}), 0, R, 1, 5) == Shown({})
  {
    var s := LiveSub().(seqNo := 3, staging := true, staged := [OPEN_ORDER]);
    ViewUpserted();
    Told(WithRec(Online(s, [Connected], {}), R, SnapshotRec(s, 5)), [Connected], Snapshot([OPEN_ORDER]));
    hide Deliver, Upsert;
    assert [Connected] + [Snapshot([OPEN_ORDER])] == [Connected, Snapshot([OPEN_ORDER])];
  }

  lemma Ends()
    ensures Leads(Online(LiveSub().(seqNo := 2, staging := true, staged := [OPEN_ORDER]), [Connected], {}),
      Data(3, SnapshotEnd(1, 5)),
                  Shown({}))
  {
    var s := LiveSub().(seqNo := 2, staging := true, staged := [OPEN_ORDER]);
    var st := Online(s, [Connected], {});
    Admitted(st, 3, SnapshotEnd(1, 5));
    SnapshotTold();
    EndsFrame();
    hide Admissible, Step, EndSnapshot, Shown, OnSubFrame, Online;
  }

  lemma EndsFrame()
    ensures var s := LiveSub().(seqNo := 2, staging := true, staged := [OPEN_ORDER]);
      OnSubFrame(Online(s, [Connected], {}), 0, 7, 3, SnapshotEnd(1, 5)) ==
      EndSnapshot(Online(s.(seqNo := 3), [Connected], {}), 0, R, 1, 5)
  {
    hide EndSnapshot;
    var s := LiveSub().(seqNo := 2, staging := true, staged := [OPEN_ORDER]);
    assert WithRec(Online(s, [Connected], {}), R, s.(seqNo := 3)) == Online(s.(seqNo := 3), [Connected], {});
  }

  lemma Expires()
    ensures Leads(Shown({}), Data(0, SubscribeExpiring), Shown({RefreshTask(0, R, 7)}))
  {
    Admitted(Shown({}), 0, SubscribeExpiring);
    hide Admissible, Step;
    assert {} + {RefreshTask(0, R, 7)} == {RefreshTask(0, R, 7)};
  }

  lemma Refreshes()
    ensures Leads(Shown({RefreshTask(0, R, 7)}), RefreshTokenEvent(0, R, 7, Token), Refreshing())
  {
    assert Shown({RefreshTask(0, R, 7)}).tasks - {RefreshTask(0, R, 7)} == {};
  }

  /** Subscribing again, the consumer not told yet. */
  function Dropped(): State {
    Lost().(recs := map[R := LostSub().(state := SubConnected)],
      consumers := map[C := Listener([Connected, Snapshot([OPEN_ORDER])])])
  }

  lemma Drops()
    ensures Redial(DropServerSub(Refreshing(), R), 0, R) == Dropped()
  {
    Unnumbers();
    hide DropServerSub, RetrySubscribe;
    assert {} + {SubscribeTask(0, R, 4)} == {SubscribeTask(0, R, 4)};
  }

  lemma Unnumbers()
    ensures DropServerSub(Refreshing(), R) ==
      Refreshing().(recs := map[R := DroppedRec(ShownSub())], bySub := map[], requestSeq := 3, unsubscribing := {3})
  {
    var st1 := DropServerSub(Refreshing(), R);
    assert st1.bySub == map[] && st1.unsubscribing == {3};
  }

  lemma DisconnectedTold()
    ensures NotifyDisconnected(Dropped(), R) == Lost()
  {
    var log := [Connected, Snapshot([OPEN_ORDER])];
    Told(WithState(Dropped(), R, SubDisconnected), log, Disconnected);
    hide Deliver;
    assert log + [Disconnected] == [Connected, Snapshot([OPEN_ORDER]), Disconnected];
  }

  /** Frame 4 is lost: frame 5 makes the client drop its server subscription and subscribe again at once. */
  lemma Gaps()
    ensures Leads(Refreshing(), Data(5, ReadyFrame), Lost())
  {
    Admitted(Refreshing(), 5, ReadyFrame);
    Drops();
    DisconnectedTold();
    hide Redial, DropServerSub, NotifyDisconnected, Admissible, Step, Lost, Dropped;
  }

  // ---------- The run ----------

  lemma Extend(events: seq<Event>, st: State, e: Event, st': State)
    requires Exec(W(), MAX_QUEUE, events) == st && Leads(st, e, st')
    ensures Exec(W(), MAX_QUEUE, events + [e]) == st'
  {
    assert Init(events + [e]) == events;
  }

  lemma ReachesView() returns (events: seq<Event>)
    ensures Honest(W()) && Exec(W(), MAX_QUEUE, events) == Shown({})
  {
    ServerHonest();
    events := [];
    assert Exec(W(), MAX_QUEUE, events) == InitialState(MAX_QUEUE);
    hide Exec, Leads, W, Honest;
    Subscribes();
    Extend(events, InitialState(MAX_QUEUE), SubscribeEvent(A, C, R), Connecting());
    events := events + [SubscribeEvent(A, C, R)];
    Connects();
    Extend(events, Connecting(), ConnectEvent(1, Token, [R]), Subscribing());
    events := events + [ConnectEvent(1, Token, [R])];
    Writes();
    Extend(events, Subscribing(), SubscribeTokenEvent(0, R, 1, Token), Confirming());
    events := events + [SubscribeTokenEvent(0, R, 1, Token)];
    Confirms();
    var begun, paged := LiveSub().(seqNo := 1, staging := true),
      LiveSub().(seqNo := 2, staging := true, staged := [OPEN_ORDER]);
    Extend(events, Confirming(), FrameEvent(0, Message(7, 0, Subscribed(1)), [R]), Online(LiveSub(), [Connected], {}));
    events := events + [FrameEvent(0, Message(7, 0, Subscribed(1)), [R])];
    Begins();
    Extend(events, Online(LiveSub(), [Connected], {}), Data(1, SnapshotBegin), Online(begun, [Connected], {}));
    events := events + [Data(1, SnapshotBegin)];
    Pages();
    Extend(events, Online(begun, [Connected], {}), Data(2, SnapshotPage([OPEN_ORDER])), Online(paged, [Connected], {}));
    events := events + [Data(2, SnapshotPage([OPEN_ORDER]))];
    Ends();
    Extend(events, Online(paged, [Connected], {}), Data(3, SnapshotEnd(1, 5)), Shown({}));
    events := events + [Data(3, SnapshotEnd(1, 5))];
  }

  /** An honest server and a run after which a subscription shows an open order at a position. */
  lemma ViewReached() returns (events: seq<Event>)
    ensures Honest(W())
    ensures var st := Exec(W(), MAX_QUEUE, events);
      Current(st, R) && st.recs[R].cursor != 0 && st.recs[R].orders == Some(map[1 := OPEN_ORDER])
  {
    events := ReachesView();
  }

  /**
   An honest server and a run after which a refresh is pending for a
   subscription that waits for a subscribe of its own: an error answering the
   refresh with "subscription unknown" and no name leaves it served twice.
   */
  lemma DoubledReached() returns (events: seq<Event>)
    ensures Honest(W())
    ensures var st := Exec(W(), MAX_QUEUE, events);
      && Inv(st) && Rooted(st) && st.conn == Some(0) && Current(st, R) && st.recs[R].sub == 0
      && 2 in st.pending && st.pending[2] == Request(RequestRefresh, R) && Waiting(st, R)
      && var st' := OnRequestError(st, 0, 0, 2, SubscriptionUnknown, [R]);
         Current(st', R) && st'.conn == Some(0) && !Served(st', R)
  {
    events := ReachesView();
    hide Exec, Inv, Served, OnRequestError, Leads, Honest, W, Lost, Rooted, Waiting;
    Expires();
    Extend(events, Shown({}), Data(0, SubscribeExpiring), Shown({RefreshTask(0, R, 7)}));
    events := events + [Data(0, SubscribeExpiring)];
    Refreshes();
    Extend(events, Shown({RefreshTask(0, R, 7)}), RefreshTokenEvent(0, R, 7, Token), Refreshing());
    events := events + [RefreshTokenEvent(0, R, 7, Token)];
    Gaps();
    Extend(events, Refreshing(), Data(5, ReadyFrame), Lost());
    events := events + [Data(5, ReadyFrame)];
    RunKeeps(W(), MAX_QUEUE, events);
    LostDoubles();
  }

  lemma LostDoubles()
    requires Inv(Lost())
    ensures var st := Lost();
      && Rooted(st) && st.conn == Some(0) && Current(st, R) && st.recs[R].sub == 0
      && 2 in st.pending && st.pending[2] == Request(RequestRefresh, R) && Waiting(st, R)
      && var st' := OnRequestError(st, 0, 0, 2, SubscriptionUnknown, [R]);
         Current(st', R) && st'.conn == Some(0) && !Served(st', R)
  {
    hide Inv, Served, OnRequestError;
    assert Awaits(Lost(), 4, R);
    UnnamedRefreshError(Lost(), 0, 2, [R]);
  }
}
