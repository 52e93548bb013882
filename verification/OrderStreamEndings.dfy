/**
 Who hears what, why subscriptions end and what they do next
 (realtime/private_orders.go), for every step of every run.
 */
module OrderStreamEndings {
  import opened Basics
  import opened OrderStreamModel
  import opened OrderStreamInvariant
  import opened OrderStreamHelpers
  import opened OrderStreamRequests
  import opened OrderStreamHandlers
  import opened OrderStreamConsumers
  import opened OrderStreamSteps
  import opened OrderStreamOwned
  import opened OrderStreamScripts
  import opened OrderStreamOutcomes
  import opened OrderStreamView
  import opened OrderStreamTheorems

  // ---------- Joining, leaving, closing, reading ----------

  /** No consumer but `c` is touched. */
  ghost predicate Undisturbed(consumers: map<ConsumerRef, Consumer>, consumers': map<ConsumerRef, Consumer>,
                              c: ConsumerRef)
  {
    forall x :: x in consumers && x != c ==> x in consumers' && consumers'[x] == consumers[x]
  }

  lemma PersonalTold(st: State, c: ConsumerRef, q: SubRef)
    requires Current(st, q)
    ensures Undisturbed(st.consumers, CloseCall(st, c).consumers, c) && Current(CloseCall(st, c), q)
    ensures Undisturbed(st.consumers, ReadOne(st, c).consumers, c) && Current(ReadOne(st, c), q)
    ensures c in st.consumers ==>
      c in CloseCall(st, c).consumers && CloseCall(st, c).consumers[c].chClosed == st.consumers[c].chClosed
    ensures c in st.consumers ==>
      c in ReadOne(st, c).consumers && ReadOne(st, c).consumers[c].chClosed == st.consumers[c].chClosed
  {
  }

  lemma RemovedTold(st: State, r: SubRef, c: ConsumerRef, q: SubRef)
    requires Sound(st) && r in st.recs && Current(st, q) && c in st.recs[r].consumers
    ensures var st' := Remove(st, r, c);
      && Undisturbed(st.consumers, st'.consumers, c) && c in st.consumers && c in st'.consumers
      && st'.consumers[c] == Finished(st.consumers[c], None)
      && (Current(st', q) <==> q != r || st.recs[r].consumers != {c})
  {
    var st1 := Removed(st, r, c);
    assert q in st.recs;
    hide *;
    RemovedCases(st, r, c, q);
    RemovedSound(st, r, c);
    if st1.recs[r].consumers == {} { TeardownEmpty(st1, r, q); }
  }

  lemma RemovedCases(st: State, r: SubRef, c: ConsumerRef, q: SubRef)
    requires Sound(st) && r in st.recs && Current(st, q) && c in st.recs[r].consumers
    ensures var st1 := Removed(st, r, c);
      && Remove(st, r, c) == (if st1.recs[r].consumers == {} then Teardown(st1, r) else st1)
      && Current(st1, q) && Undisturbed(st.consumers, st1.consumers, c)
      && c in st.consumers && c in st1.consumers && st1.consumers[c] == Finished(st.consumers[c], None)
      && (st1.recs[r].consumers == {} <==> st.recs[r].consumers == {c})
  {
    hide Teardown;
    assert st.recs[r].consumers - {c} == {} <==> st.recs[r].consumers == {c};
  }

  lemma RemovedSound(st: State, r: SubRef, c: ConsumerRef)
    requires Sound(st) && r in st.recs && c in st.recs[r].consumers
    ensures Sound(Removed(st, r, c))
  {
    hide Owned, Latched;
    RemovedOwned(st, r, c);
    FinishedLatched(st.consumers, {c}, None);
  }

  lemma RemovedOwned(st: State, r: SubRef, c: ConsumerRef)
    requires Owned(st.subs, st.recs, st.consumers) && r in st.recs && c in st.recs[r].consumers
    ensures var st1 := Removed(st, r, c); Owned(st1.subs, st1.recs, st1.consumers)
  {
    hide Owned;
    FinishOwned(st.subs, st.recs, st.consumers, r, {c}, None);
  }

  lemma JoinTold(st: State, account: Account, c: ConsumerRef, r: SubRef, q: SubRef)
    requires AllPeopled(st) && c !in st.consumers && r !in st.recs && Current(st, q)
    requires account in st.subs ==> st.subs[account] in st.recs && Current(st, st.subs[account])
    ensures var st' := SubscribeCall(st, account, c, r); Undisturbed(st.consumers, st'.consumers, c) && Current(st', q)
  {
    JoinCases(st, account, c, r, q);
    var st1, st' := Join(st, account, c, r), SubscribeCall(st, account, c, r);
    if account in st.subs {
      var joined := st.subs[account];
      JoinOffered(st, account, c, r);
      hide *;
      OneUndisturbed(st1, st', joined, c,
                     OfferedEach(st.maxQueue, NewConsumer(joined), CatchUpEvents(st.recs[joined])), q);
    } else {
      StartsQuietly(st, account, c, r, q);
    }
  }

  lemma JoinCases(st: State, account: Account, c: ConsumerRef, r: SubRef, q: SubRef)
    requires r !in st.recs && Current(st, q) && c !in st.consumers
    requires account in st.subs ==> st.subs[account] in st.recs
    ensures var st1 := Join(st, account, c, r); Current(st1, q) && Undisturbed(st.consumers, st1.consumers, c)
  {
  }

  lemma OneUndisturbed(st: State, st': State, r: SubRef, c: ConsumerRef, k: Consumer, q: SubRef)
    requires r in st.recs && r in st'.recs && OneOffered(st, st', r, c, k) && Current(st, q)
    ensures Undisturbed(st.consumers, st'.consumers, c) && Current(st', q)
  {
  }

  lemma StartsQuietly(st: State, account: Account, c: ConsumerRef, r: SubRef, q: SubRef)
    requires account !in st.subs && c !in st.consumers && r !in st.recs && Current(st, q)
    ensures var st' := SubscribeCall(st, account, c, r);
      && Undisturbed(st.consumers, st'.consumers, c) && Current(st', q)
      && c in st'.consumers && st'.consumers[c] == NewConsumer(r) && Current(st', r) && st'.recs[r].consumers == {c}
  {
  }

  lemma JoinOffered(st: State, account: Account, c: ConsumerRef, r: SubRef)
    requires AllPeopled(st) && c !in st.consumers && account in st.subs && Current(st, st.subs[account])
    ensures var q, st1 := st.subs[account], Join(st, account, c, r);
      OneOffered(st1, SubscribeCall(st, account, c, r), q, c,
                 OfferedEach(st.maxQueue, NewConsumer(q), CatchUpEvents(st.recs[q])))
  {
    var q, st1 := st.subs[account], Join(st, account, c, r);
    assert Peopled(st, q);
    var other :| other in st.recs[q].consumers;
    assert other in st.consumers && other != c && other in st1.recs[q].consumers;
    assert CatchUpEvents(st1.recs[q]) == CatchUpEvents(st.recs[q]);
    assert SubscribeCall(st, account, c, r) == OfferEach(st1, q, c, CatchUpEvents(st.recs[q]));
    assert st1.consumers[c] == NewConsumer(q) && st1.maxQueue == st.maxQueue;
    hide *;
    OfferEachOne(st1, q, c, other, CatchUpEvents(st.recs[q]));
  }

  // ---------- The theorems ----------

  /** The state after one step more. */
  lemma OneStepMore(w: Server, maxQueue: int, events: seq<Event>, e: Event)
    requires Honest(w) && maxQueue > 0 && Admissible(w, Exec(w, maxQueue, events), e)
    ensures var st := Exec(w, maxQueue, events);
      && Inv(st) && st.maxQueue == maxQueue && Exec(w, maxQueue, events + [e]) == Step(st, e)
  {
    RunKeeps(w, maxQueue, events);
    ExecMaxQueue(w, maxQueue, events);
    assert Init(events + [e]) == events && Last(events + [e]) == e;
    hide Inv, Admissible, Honest;
  }

  /** A step and the state it is taken in, as they occur in a run. */
  ghost predicate Takes(w: Server, st: State, e: Event) {
    Inv(st) && Admissible(w, st, e)
  }

  /**
   What consumers hear. Every step tells each consumer of each subscription exactly what the table says, in its
   order: the events until its queue is full, then the error that ends the subscription, if one does.
   */
  lemma ToldByTheTable(w: Server, maxQueue: int, events: seq<Event>, e: Event, r: SubRef, c: ConsumerRef)
    requires Honest(w) && maxQueue > 0
    requires var st := Exec(w, maxQueue, events); Admissible(w, st, e) && Current(st, r) && c in st.recs[r].consumers
    requires !Personal(e, c)
    ensures var st, st' := Exec(w, maxQueue, events), Exec(w, maxQueue, events + [e]);
      c in st.consumers && c in st'.consumers
        && st'.consumers[c] == Played(maxQueue, st.consumers[c], ScriptOf(st, e, r))
  {
    var st := Exec(w, maxQueue, events);
    OneStepMore(w, maxQueue, events, e);
    hide Exec;
    StepHeard(w, st, e, r, c);
  }

  lemma StepHeard(w: Server, st: State, e: Event, r: SubRef, c: ConsumerRef)
    requires Takes(w, st, e) && Current(st, r) && c in st.recs[r].consumers && !Personal(e, c)
    ensures Enabled(st, e) && Rooted(st)
    ensures c in st.consumers && c in Step(st, e).consumers
      && Step(st, e).consumers[c] == Played(st.maxQueue, st.consumers[c], ScriptOf(st, e, r))
  {
    ConsumerKnown(st, r, c);
    if Private(e) {
      OneEvent(st.maxQueue, st.consumers[c], Connected);
      assert ScriptOf(st, e, r) == Nothing;
      PrivateHeard(st, e, r, c);
    } else {
      hide Inv, Current, ScriptOf, Played, Sound, Step, Rooted;
      StepTold(st, e, r);
    }
  }

  lemma ConsumerKnown(st: State, r: SubRef, c: ConsumerRef)
    requires Inv(st) && r in st.recs && c in st.recs[r].consumers
    ensures c in st.consumers && !st.consumers[c].chClosed && st.consumers[c].owner == r
  {
    assert Owned(st.subs, st.recs, st.consumers);
    hide Inv;
  }

  lemma SubsRooted(st: State)
    requires Inv(st)
    ensures forall a :: a in st.subs ==> st.subs[a] in st.recs && Current(st, st.subs[a])
  {
    assert Owned(st.subs, st.recs, st.consumers);
    hide Inv;
  }

  /** A step that concerns another consumer tells this one nothing. */
  lemma PrivateHeard(st: State, e: Event, r: SubRef, c: ConsumerRef)
    requires Inv(st) && Enabled(st, e) && Rooted(st) && Current(st, r) && c in st.recs[r].consumers && c in st.consumers
    requires Private(e) && !Personal(e, c)
    ensures c in Step(st, e).consumers && Step(st, e).consumers[c] == st.consumers[c]
  {
    hide Inv, AllPeopled, Rooted, Current, SubscribeCall, CloseCall, ReadOne, Remove;
    InvPeopled(st);
    SubsRooted(st);
    match e
    case SubscribeEvent(account, x, q) => JoinTold(st, account, x, q, r);
    case CloseEvent(x) => PersonalTold(st, x, r);
    case ReadEvent(x) => PersonalTold(st, x, r);
    case RemoveEvent(q, x) =>
      SoundOf(st);
      if x in st.recs[q].consumers { RemovedTold(st, q, x, r); } else { NotRemoved(st, q, x); }
  }

  lemma SoundOf(st: State)
    requires AllPeopled(st)
    ensures Sound(st)
  {
  }

  lemma SomeConsumer(st: State, r: SubRef) returns (c: ConsumerRef)
    requires AllPeopled(st) && Current(st, r)
    ensures r in st.recs && c in st.recs[r].consumers
  {
    assert Peopled(st, r);
    c :| c in st.recs[r].consumers;
  }

  lemma NotRemoved(st: State, r: SubRef, c: ConsumerRef)
    requires r in st.recs && c !in st.recs[r].consumers
    ensures Remove(st, r, c) == st
  {
  }

  /** A consumer that neither leaves nor is lost in a step. */
  ghost predicate Remains(st: State, e: Event, r: SubRef, c: ConsumerRef, script: Script)
    requires r in st.recs
  {
    && c in st.recs[r].consumers && c in st.consumers && e != RemoveEvent(r, c)
    && !Played(st.maxQueue, st.consumers[c], script).chClosed
  }

  /**
   Why a subscription ends. It outlives a step exactly if the table does not end it and one of its consumers is
   left: one that neither leaves in that step nor is told more than its queue holds.
   */
  lemma WhyEnds(w: Server, maxQueue: int, events: seq<Event>, e: Event, r: SubRef)
    requires Honest(w) && maxQueue > 0
    requires var st := Exec(w, maxQueue, events); Admissible(w, st, e) && Current(st, r)
    ensures var st, st' := Exec(w, maxQueue, events), Exec(w, maxQueue, events + [e]);
      var script := ScriptOf(st, e, r);
      Current(st', r) <==> script.end.None? && exists c :: Remains(st, e, r, c, script)
  {
    var st := Exec(w, maxQueue, events);
    OneStepMore(w, maxQueue, events, e);
    hide Exec;
    StepOutlived(w, st, e, r);
  }

  lemma StepOutlived(w: Server, st: State, e: Event, r: SubRef)
    requires Takes(w, st, e) && Current(st, r)
    ensures Enabled(st, e) && Rooted(st)
    ensures var script := ScriptOf(st, e, r);
      Current(Step(st, e), r) <==> script.end.None? && exists c :: Remains(st, e, r, c, script)
  {
    var script := ScriptOf(st, e, r);
    if Private(e) {
      assert script == Nothing;
      hide Step;
      forall c | c in st.recs[r].consumers
        ensures c in st.consumers && Played(st.maxQueue, st.consumers[c], script) == st.consumers[c]
        && !st.consumers[c].chClosed
      {
        ConsumerKnown(st, r, c);
        OneEvent(st.maxQueue, st.consumers[c], Connected);
      }
      PrivateOutlived(st, e, r);
      assert forall c :: Remains(st, e, r, c, script) <==> c in st.recs[r].consumers && e != RemoveEvent(r, c);
    } else {
      forall c | c in st.recs[r].consumers ensures c in st.consumers { ConsumerKnown(st, r, c); }
      StepTold(st, e, r);
      hide Inv, ScriptOf, Step, Rooted, Sound;
      HeardOutlived(st, Step(st, e), e, r, script);
    }
  }

  lemma HeardOutlived(st: State, st': State, e: Event, r: SubRef, script: Script)
    requires Current(st, r) && Heard(st, st', r, script) && !Private(e)
    requires forall c :: c in st.recs[r].consumers ==> c in st.consumers
    ensures Current(st', r) <==> script.end.None? && exists c :: Remains(st, e, r, c, script)
  {
    if script.end.Some? {
      forall c | c in st.recs[r].consumers ensures Played(st.maxQueue, st.consumers[c], script).chClosed {}
    }
    assert forall c :: c in st'.recs[r].consumers <==> Remains(st, e, r, c, script);
  }

  lemma PrivateOutlived(st: State, e: Event, r: SubRef)
    requires Inv(st) && Enabled(st, e) && Rooted(st) && Current(st, r) && Private(e)
    ensures Current(Step(st, e), r) <==> exists c :: c in st.recs[r].consumers && e != RemoveEvent(r, c)
  {
    hide Inv, AllPeopled, Rooted, Current, SubscribeCall, CloseCall, ReadOne, Remove;
    InvPeopled(st);
    SubsRooted(st);
    SoundOf(st);
    var any := SomeConsumer(st, r);
    match e
    case SubscribeEvent(account, x, q) =>
      JoinTold(st, account, x, q, r);
      assert e != RemoveEvent(r, any);
    case CloseEvent(x) =>
      PersonalTold(st, x, r);
      assert e != RemoveEvent(r, any);
    case ReadEvent(x) =>
      PersonalTold(st, x, r);
      assert e != RemoveEvent(r, any);
    case RemoveEvent(q, x) =>
      if x in st.recs[q].consumers {
        RemovedTold(st, q, x, r);
        if st.recs[r].consumers == {x} {
        } else if any == x {
          assert st.recs[r].consumers - {x} != {};
          var other :| other in st.recs[r].consumers - {x};
          assert e != RemoveEvent(r, other);
        } else {
          assert e != RemoveEvent(r, any);
        }
      } else {
        NotRemoved(st, q, x);
        assert e != RemoveEvent(r, any);
      }
  }

  /** A late joiner hears, as far as its queue goes, what brings it up to date; the first one starts with nothing. */
  lemma JoinerTold(w: Server, maxQueue: int, events: seq<Event>, account: Account, c: ConsumerRef, r: SubRef)
    requires Honest(w) && maxQueue > 0
    requires Admissible(w, Exec(w, maxQueue, events), SubscribeEvent(account, c, r))
    ensures var st, st' := Exec(w, maxQueue, events), Exec(w, maxQueue, events + [SubscribeEvent(account, c, r)]);
      && c in st'.consumers && account in st'.subs
      && (account in st.subs ==> st.subs[account] in st.recs)
      && if account in st.subs then
           st'.consumers[c] ==
             OfferedEach(maxQueue, NewConsumer(st.subs[account]), CatchUpEvents(st.recs[st.subs[account]]))
         else st'.consumers[c] == NewConsumer(r)
  {
    var st := Exec(w, maxQueue, events);
    var e := SubscribeEvent(account, c, r);
    OneStepMore(w, maxQueue, events, e);
    InvPeopled(st);
    SubsRooted(st);
    assert Enabled(st, e);
    hide Exec, Inv, AllPeopled;
    if account in st.subs {
      JoinOffered(st, account, c, r);
      hide SubscribeCall, OfferedEach;
    } else {
      FirstJoiner(st, account, c, r);
    }
  }

  lemma FirstJoiner(st: State, account: Account, c: ConsumerRef, r: SubRef)
    requires account !in st.subs && c !in st.consumers && r !in st.recs
    ensures var st' := SubscribeCall(st, account, c, r);
      && c in st'.consumers && st'.consumers[c] == NewConsumer(r) && account in st'.subs && st'.subs[account] == r
  {
  }

  // ---------- Tokens ----------

  /** The connection's own token was asked for, on this run or this connection. */
  predicate AsksToken(st: State, e: Event) {
    (e.ConnectEvent? && st.sess == Some(e.sess)) || (e.ReauthEvent? && st.conn == Some(e.conn))
  }

  predicate WithRoom(st: State, r: SubRef, c: ConsumerRef)
    requires r in st.recs
  {
    c in st.recs[r].consumers && c in st.consumers && !Overflows(st.maxQueue, st.consumers[c])
  }

  /**
   A refused connection token ends every subscription and with them the run; failing to get one ends none,
   except for a subscription whose consumers all overflow when they are told.
   */
  lemma ConnectionToken(w: Server, maxQueue: int, events: seq<Event>, e: Event)
    requires Honest(w) && maxQueue > 0
    requires var st := Exec(w, maxQueue, events); Admissible(w, st, e) && AsksToken(st, e)
    ensures var st, st' := Exec(w, maxQueue, events), Exec(w, maxQueue, events + [e]);
      && (e.result == Refused ==> st'.subs == map[] && st'.sess.None?)
      && (e.result != Refused ==>
            forall r, c :: Current(st, r) && WithRoom(st, r, c) ==> Current(st', r))
  {
    var st := Exec(w, maxQueue, events);
    OneStepMore(w, maxQueue, events, e);
    if e.result == Refused {
      RefusedEnds(w, st, e);
    } else {
      hide Inv, Admissible, Honest;
      forall r, c | Current(st, r) && WithRoom(st, r, c)
        ensures Current(Exec(w, maxQueue, events + [e]), r)
      {
        WhyEnds(w, maxQueue, events, e, r);
        StillThere(st, e, r, c);
      }
    }
  }

  lemma StillThere(st: State, e: Event, r: SubRef, c: ConsumerRef)
    requires Inv(st) && Current(st, r) && c in st.recs[r].consumers && c in st.consumers
    requires (e.ConnectEvent? || e.ReauthEvent?) && e.result != Refused && !Overflows(st.maxQueue, st.consumers[c])
    ensures ScriptOf(st, e, r).end.None? && Remains(st, e, r, c, ScriptOf(st, e, r))
  {
    ConsumerKnown(st, r, c);
    OneEvent(st.maxQueue, st.consumers[c], StreamError(Transient));
    hide Inv, OfferedEach;
    assert ScriptOf(st, e, r) == Nothing || ScriptOf(st, e, r) == Erring(Transient);
  }

  lemma RefusedEnds(w: Server, st: State, e: Event)
    requires Takes(w, st, e) && AsksToken(st, e) && e.result == Refused
    ensures Enabled(st, e) && Rooted(st) && Step(st, e).subs == map[] && Step(st, e).sess.None?
  {
    VisitsRecs(st, e.order);
    if e.ConnectEvent? {
      var st1 := st.(tasks := st.tasks - {ConnectTask(e.sess)}, connecting := false);
      ConnectDone(st, e.sess);
      hide Inv, Core, TerminateAll, AllSettled;
      TerminateAllEnds(st1, TokenRefused, e.order);
      NoRun(TerminateAll(st1, TokenRefused, e.order));
    } else {
      var st1 := st.(tasks := st.tasks - {ReauthTask(e.conn)});
      TaskDone(st, ReauthTask(e.conn));
      CoreOf(st1);
      hide Inv, Core, TerminateAll;
      TerminateAllEnds(st1, TokenRefused, e.order);
      NoRun(TerminateAll(st1, TokenRefused, e.order));
    }
  }

  lemma CoreOf(st: State)
    requires Inv(st)
    ensures Core(st)
  {
  }

  lemma NoRun(st: State)
    requires Inv(st) && st.sess.None?
    ensures st.subs == map[]
  {
    assert Wired(st);
    hide Inv;
  }

  // ---------- Giving a server subscription up ----------

  /** A frame of the server subscription of `r`, on its connection. */
  predicate FrameOf(st: State, e: Event, r: SubRef) {
    && e.FrameEvent? && st.conn == Some(e.conn) && e.msg.Message? && e.msg.sub in st.bySub && st.bySub[e.msg.sub] == r
    && !e.msg.frame.Subscribed? && !e.msg.frame.SubscribeRefreshed? && !e.msg.frame.Error?
      && !e.msg.frame.TokenExpiring?
    && !(e.msg.frame.Unsubscribed? && e.msg.frame.id in st.unsubscribing)
  }

  predicate OutOfOrder(s: Sub, seqNo: int) {
    seqNo > 0 && seqNo != s.seqNo + 1
  }

  /** In order, but the snapshot it ends is not the one that was announced. */
  predicate ShortSnapshot(s: Sub, msg: Incoming) {
    && msg.Message? && !OutOfOrder(s, msg.seqNo) && msg.frame.SnapshotEnd?
    && (!s.staging || |s.staged| != msg.frame.count)
  }

  /** The state after a delivery that the subscription outlives: only queues changed, and perhaps who is left. */
  lemma OutlivedDelivery(st: State, r: SubRef, event: StreamEvent)
    requires Sound(st) && Current(st, r) && Current(Deliver(st, r, event), r)
    ensures var st' := Deliver(st, r, event);
      && st' == st.(recs := st.recs[r := st.recs[r].(consumers := st'.recs[r].consumers)], consumers := st'.consumers)
  {
    var part := st.recs[r].consumers;
    OwnersMatch(st, r);
    OfferOnlyOwned(st, r, part, event);
    hide Sound;
    if DroppedBy(st, part) != {} && OfferOnly(st, r, part, event).recs[r].consumers == {} {
      TeardownEmpty(OfferOnly(st, r, part, event), r, r);
    }
  }

  /** How the subscription goes on after its server subscription is given up. */
  ghost predicate Starting(st: State, st': State, r: SubRef, cursor: Cursor, told: bool)
    requires r in st.recs && r in st'.recs
  {
    var s, s' := st.recs[r], st'.recs[r];
    && s'.sub == 0 && s'.seqNo == 0 && !s'.ready && !s'.staging && s'.cursor == cursor && s'.orders == s.orders
    && s.sub !in st'.bySub && st'.bySub.Keys <= st.bySub.Keys
    && s'.retries == s.retries + 1
    && (if s.retries == 0 then Awaits(st', st'.requestSeq, r) && st'.requestSeq !in st.pending
        else s'.retryTimer.Some? && st'.pending == st.pending)
    && (if told then exists id :: st'.unsubscribing == st.unsubscribing + {id} && id > st.requestSeq
        else st'.unsubscribing == st.unsubscribing)
  }

  /** `st'` is `st` but for one more retry of `r`, its timer and what it asks for. */
  ghost predicate Redialled(st: State, st': State, r: SubRef)
    requires r in st.recs
  {
    && Current(st', r) && st'.unsubscribing == st.unsubscribing && st'.bySub == st.bySub
    && st'.recs[r] == st.recs[r].(retries := st.recs[r].retries + 1, retryTimer := st'.recs[r].retryTimer)
    && if st.recs[r].retries == 0 then Awaits(st', st'.requestSeq, r) && st'.requestSeq !in st.pending
       else st'.recs[r].retryTimer.Some? && st'.pending == st.pending
  }

  lemma RetryStarts(st: State, conn: int, r: SubRef)
    requires Current(st, r) && st.sess.Some? && st.recs[r].retries > 0
    ensures Redialled(st, RetrySubscribe(st, conn, r), r)
  {
  }

  lemma AskStarts(st: State, conn: int, r: SubRef)
    requires Current(st, r) && st.recs[r].retries == 0 && (forall id :: id in st.pending ==> id <= st.requestSeq)
    ensures Redialled(st, SubscribeServer(WithRec(st, r, st.recs[r].(retries := 1)), conn, r), r)
  {
    var st1 := WithRec(st, r, st.recs[r].(retries := 1));
    assert Current(st1, r) && st.requestSeq + 1 !in st.pending;
  }

  lemma RedialStarts(st: State, conn: int, r: SubRef)
    requires Current(st, r) && st.sess.Some? && st.recs[r].retries >= 0
    requires forall id :: id in st.pending ==> id <= st.requestSeq
    ensures Redialled(st, Redial(st, conn, r), r)
  {
    hide Redialled, RetrySubscribe, SubscribeServer, WithRec;
    if st.recs[r].retries > 0 { RetryStarts(st, conn, r); } else { AskStarts(st, conn, r); }
  }

  lemma DropStarts(st: State, r: SubRef)
    requires Current(st, r) && st.requestSeq >= 0
    ensures var st' := DropServerSub(st, r);
      && Current(st', r) && st'.recs[r] == DroppedRec(st.recs[r]) && st'.pending == st.pending && st'.sess == st.sess
      && st'.requestSeq >= st.requestSeq
      && if st.recs[r].sub != 0 then
           && st'.bySub == st.bySub - {st.recs[r].sub}
           && st'.unsubscribing == st.unsubscribing + {st.requestSeq + 1}
         else st'.bySub == st.bySub && st'.unsubscribing == st.unsubscribing
  {
  }

  /** `Resubscribe`, when the subscription outlives it. */
  lemma ResubscribeStarts(st: State, conn: int, r: SubRef)
    requires Sound(st) && Current(st, r) && st.sess.Some? && st.requestSeq >= 0 && st.recs[r].retries >= 0
    requires (forall id :: id in st.pending ==> id <= st.requestSeq) && (st.recs[r].sub == 0 ==> 0 !in st.bySub)
    requires Current(Resubscribe(st, conn, r), r)
    ensures Starting(st, Resubscribe(st, conn, r), r, st.recs[r].cursor, st.recs[r].sub != 0)
  {
    var st1 := DropServerSub(st, r);
    var st2 := Redial(st1, conn, r);
    DropStarts(st, r);
    RedialStarts(st1, conn, r);
    ResubscribeSound(st, conn, r);
    hide Sound, DropServerSub, Redial;
    NotifiedStays(st2, r);
  }

  lemma ResubscribeSound(st: State, conn: int, r: SubRef)
    requires Sound(st) && Current(st, r)
    ensures Sound(Redial(DropServerSub(st, r), conn, r))
  {
    hide Sound, DropServerSub, Redial;
    DropCrowd(st, r);
    CrowdSound(st, DropServerSub(st, r));
    RedialCrowd(DropServerSub(st, r), conn, r);
    CrowdSound(DropServerSub(st, r), Redial(DropServerSub(st, r), conn, r));
  }

  lemma NotifiedStays(st: State, r: SubRef)
    requires Sound(st) && Current(st, r) && Current(NotifyDisconnected(st, r), r)
    ensures var st' := NotifyDisconnected(st, r);
      && st'.pending == st.pending && st'.requestSeq == st.requestSeq && st'.bySub == st.bySub
      && st'.unsubscribing == st.unsubscribing
      && st'.recs[r] == st.recs[r].(consumers := st'.recs[r].consumers, state := st'.recs[r].state)
  {
    if st.recs[r].state == SubConnected {
      var st1 := WithState(st, r, SubDisconnected);
      EditCrowd(st, r, st1.recs[r]);
      CrowdSound(st, st1);
      hide Sound, Deliver;
      OutlivedDelivery(st1, r, Disconnected);
    }
  }

  /**
   A frame out of order, a snapshot that is not the one announced, and the server's own unsubscribe make the
   subscription forget its server subscription and subscribe again: at once the first time, later after a
   delay; without its position when the snapshot was short. The server is told unless it told so itself.
   */
  lemma GivesUp(w: Server, maxQueue: int, events: seq<Event>, e: Event, r: SubRef)
    requires Honest(w) && maxQueue > 0
    requires var st := Exec(w, maxQueue, events); Admissible(w, st, e) && Current(st, r) && FrameOf(st, e, r)
    requires var s := Exec(w, maxQueue, events).recs[r];
      OutOfOrder(s, e.msg.seqNo) || ShortSnapshot(s, e.msg) || e.msg.frame.Unsubscribed?
    requires Current(Exec(w, maxQueue, events + [e]), r)
    ensures var st, st' := Exec(w, maxQueue, events), Exec(w, maxQueue, events + [e]);
      var s := st.recs[r];
      Starting(st, st', r, if ShortSnapshot(s, e.msg) then 0 else s.cursor,
               OutOfOrder(s, e.msg.seqNo) || ShortSnapshot(s, e.msg))
  {
    OneStepMore(w, maxQueue, events, e);
    hide Exec;
    var st := Exec(w, maxQueue, events);
    var s := st.recs[r];
    StartingGround(st, e.msg.sub, r);
    FrameGives(st, e, r);
    var cursor := if ShortSnapshot(s, e.msg) then 0 else s.cursor;
    hide *;
    SubFrameGives(st, e.conn, e.msg, r);
  }

  /** What a living subscription starts again from. */
  ghost predicate Ground(st: State, r: SubRef) {
    && Sound(st) && Rooted(st) && Current(st, r) && st.sess.Some? && st.requestSeq >= 0
    && st.recs[r].retries >= 0 && st.recs[r].sub != 0 && 0 !in st.bySub
    && (forall id :: id in st.pending ==> id <= st.requestSeq)
  }

  lemma StartingGround(st: State, sid: ServerSub, r: SubRef)
    requires Inv(st) && sid in st.bySub && st.bySub[sid] == r
    ensures Ground(st, r)
  {
    InvSound(st);
    InvPeopled(st);
    assert Wired(st) && Routed(st.subs, st.recs, st.bySub, st.pending, st.requestSeq);
    hide Inv, AllPeopled, Sound;
  }

  lemma FrameGives(st: State, e: Event, r: SubRef)
    requires Rooted(st) && Enabled(st, e) && r in st.recs && FrameOf(st, e, r)
    ensures Step(st, e) == OnSubFrame(st, e.conn, e.msg.sub, e.msg.seqNo, e.msg.frame)
  {
    hide OnSubFrame, OnSubscribed, OnRequestError;
  }

  /** The record once a frame's number is noted. */
  function Noted(s: Sub, seqNo: int): Sub {
    if seqNo > 0 then s.(seqNo := seqNo) else s
  }

  lemma NotedNumbers(s: Sub, seqNo: int)
    ensures Numbered(s, Noted(s, seqNo))
  {
  }

  lemma UnsubscribedGives(st: State, conn: int, r: SubRef, s1: Sub, id: RequestId)
    requires r in st.recs && Numbered(st.recs[r], s1)
    ensures Process(WithRec(st, r, s1), conn, r, Unsubscribed(id)) ==
      Resubscribe(st.(recs := st.recs[r := s1.(sub := 0)], bySub := st.bySub - {st.recs[r].sub}), conn, r)
  {
    hide Resubscribe;
    Patched(st.recs, r, s1, s1.(sub := 0));
  }

  lemma ShortGives(st: State, conn: int, r: SubRef, s1: Sub, count: int, cursor: Cursor)
    requires r in st.recs && (!s1.staging || |s1.staged| != count)
    ensures Process(WithRec(st, r, s1), conn, r, SnapshotEnd(count, cursor)) ==
      Resubscribe(st.(recs := st.recs[r := s1.(staging := false, staged := [], cursor := 0)]), conn, r)
  {
    hide Resubscribe;
    Patched(st.recs, r, s1, s1.(staging := false, staged := [], cursor := 0));
  }

  lemma GivesCases(st: State, conn: int, msg: Incoming, r: SubRef)
    requires Rooted(st) && r in st.recs && msg.Message? && msg.sub in st.bySub && st.bySub[msg.sub] == r
    requires OutOfOrder(st.recs[r], msg.seqNo) || ShortSnapshot(st.recs[r], msg) || msg.frame.Unsubscribed?
    ensures var s, st' := st.recs[r], OnSubFrame(st, conn, msg.sub, msg.seqNo, msg.frame);
      if OutOfOrder(s, msg.seqNo) then st' == Resubscribe(st, conn, r)
      else
        var s1 := Noted(s, msg.seqNo);
        if msg.frame.Unsubscribed? then
          st' == Resubscribe(st.(recs := st.recs[r := s1.(sub := 0)], bySub := st.bySub - {s.sub}), conn, r)
        else
          && ShortSnapshot(s, msg)
          && st' == Resubscribe(st.(recs := st.recs[r := s1.(staging := false, staged := [], cursor := 0)]), conn, r)
  {
    hide Resubscribe, Process, WithRec;
    var s := st.recs[r];
    var s1 := Noted(s, msg.seqNo);
    if msg.frame.Unsubscribed? {
      UnsubscribedGives(st, conn, r, s1, msg.frame.id);
    } else if !OutOfOrder(s, msg.seqNo) {
      ShortGives(st, conn, r, s1, msg.frame.count, msg.frame.cursor);
    }
  }

  lemma SubFrameGives(st: State, conn: int, msg: Incoming, r: SubRef)
    requires Ground(st, r) && msg.Message? && msg.sub in st.bySub && st.bySub[msg.sub] == r && Rooted(st)
      && r in st.recs
    requires OutOfOrder(st.recs[r], msg.seqNo) || ShortSnapshot(st.recs[r], msg) || msg.frame.Unsubscribed?
    requires Current(OnSubFrame(st, conn, msg.sub, msg.seqNo, msg.frame), r)
    ensures var s := st.recs[r];
      Starting(st, OnSubFrame(st, conn, msg.sub, msg.seqNo, msg.frame), r, if ShortSnapshot(s, msg) then 0
        else s.cursor,
               OutOfOrder(s, msg.seqNo) || ShortSnapshot(s, msg))
  {
    hide *;
    GroundParts(st, r);
    if ShortSnapshot(st.recs[r], msg) { ShortMeans(st.recs[r], msg); }
    GivesCases(st, conn, msg, r);
    if OutOfOrder(st.recs[r], msg.seqNo) {
      ResubscribeStarts(st, conn, r);
    } else {
      var s1 := Noted(st.recs[r], msg.seqNo);
      NotedNumbers(st.recs[r], msg.seqNo);
      if msg.frame.Unsubscribed? {
        EndedStarts(st, st.(recs := st.recs[r := s1.(sub := 0)], bySub := st.bySub - {st.recs[r].sub}), conn, r, s1);
      } else {
        ShortStarts(st, st.(recs := st.recs[r := s1.(staging := false, staged := [], cursor := 0)]), conn, r, s1);
      }
    }
  }

  lemma EndedStarts(st: State, st2: State, conn: int, r: SubRef, s1: Sub)
    requires Ground(st, r) && r in st.recs && Numbered(st.recs[r], s1)
    requires st2 == st.(recs := st.recs[r := s1.(sub := 0)], bySub := st.bySub - {st.recs[r].sub})
    requires Current(Resubscribe(st2, conn, r), r)
    ensures Starting(st, Resubscribe(st2, conn, r), r, st.recs[r].cursor, false)
  {
    StartsFrom(st, st2, conn, r, s1.(sub := 0));
  }

  lemma ShortStarts(st: State, st2: State, conn: int, r: SubRef, s1: Sub)
    requires Ground(st, r) && r in st.recs && Numbered(st.recs[r], s1)
    requires st2 == st.(recs := st.recs[r := s1.(staging := false, staged := [], cursor := 0)])
    requires Current(Resubscribe(st2, conn, r), r)
    ensures Starting(st, Resubscribe(st2, conn, r), r, 0, true)
  {
    StartsFrom(st, st2, conn, r, s1.(staging := false, staged := [], cursor := 0));
  }

  lemma ShortMeans(s: Sub, msg: Incoming)
    requires msg.Message? && ShortSnapshot(s, msg)
    ensures !OutOfOrder(s, msg.seqNo) && !msg.frame.Unsubscribed?
  {
  }

  lemma GroundParts(st: State, r: SubRef)
    requires Ground(st, r)
    ensures Sound(st) && Current(st, r) && st.sess.Some? && st.requestSeq >= 0 && st.recs[r].retries >= 0
    ensures st.recs[r].sub != 0 && forall id :: id in st.pending ==> id <= st.requestSeq
  {
  }

  lemma StartsFrom(st: State, st2: State, conn: int, r: SubRef, s2: Sub)
    requires Ground(st, r) && s2 == st.recs[r].(seqNo := s2.seqNo, sub := s2.sub, staging := s2.staging,
                                                staged := s2.staged, cursor := s2.cursor)
    requires st2 == st.(recs := st.recs[r := s2], bySub := st2.bySub)
    requires s2.sub == 0 ==> st2.bySub == st.bySub - {st.recs[r].sub}
    requires s2.sub != 0 ==> s2.sub == st.recs[r].sub && st2.bySub == st.bySub
    requires Current(Resubscribe(st2, conn, r), r)
    ensures Starting(st, Resubscribe(st2, conn, r), r, s2.cursor, s2.sub != 0)
  {
    EditGround(st, st2, r, s2);
    hide Sound, Resubscribe, Ground;
    ResubscribeStarts(st2, conn, r);
    SameStart(st, st2, Resubscribe(st2, conn, r), r, s2);
  }

  lemma EditGround(st: State, st2: State, r: SubRef, s2: Sub)
    requires Ground(st, r) && SameSeat(st, r, s2) && st2 == st.(recs := st.recs[r := s2], bySub := st2.bySub)
    requires s2.retries == st.recs[r].retries && st2.bySub.Keys <= st.bySub.Keys
    ensures Sound(st2) && Current(st2, r) && st2.sess.Some? && st2.requestSeq >= 0 && st2.recs[r].retries >= 0
    ensures (forall id :: id in st2.pending ==> id <= st2.requestSeq) && 0 !in st2.bySub && r in st.recs
  {
    hide Sound;
    EditCrowd(st, r, s2);
    CrowdSound(st, WithRec(st, r, s2));
    SoundBySub(WithRec(st, r, s2), st2);
  }

  lemma SameStart(st: State, st2: State, st': State, r: SubRef, s2: Sub)
    requires r in st.recs && r in st'.recs && st2 == st.(recs := st.recs[r := s2], bySub := st2.bySub)
    requires s2 == st.recs[r].(seqNo := s2.seqNo, sub := s2.sub, staging := s2.staging, staged := s2.staged,
                               cursor := s2.cursor)
    requires s2.sub == 0 ==> st2.bySub == st.bySub - {st.recs[r].sub} && st'.bySub.Keys <= st2.bySub.Keys
    requires s2.sub != 0 ==> s2.sub == st.recs[r].sub && st2.bySub == st.bySub
    requires Starting(st2, st', r, s2.cursor, s2.sub != 0)
    ensures Starting(st, st', r, s2.cursor, s2.sub != 0)
  {
  }

  lemma SoundBySub(st: State, st': State)
    requires Sound(st) && st' == st.(bySub := st'.bySub)
    ensures Sound(st')
  {
  }

  /** The server says that it does not know the server subscription of `r`, unasked or in answer to a refresh of it. */
  predicate SaysLost(st: State, e: Event, r: SubRef) {
    && e.FrameEvent? && st.conn == Some(e.conn) && e.msg.Message? && e.msg.frame.Error?
    && e.msg.frame.code == SubscriptionUnknown && e.msg.sub in st.bySub && st.bySub[e.msg.sub] == r
    && var id := e.msg.frame.id;
       id == 0 || (id !in st.unsubscribing && id in st.pending && st.pending[id] == Request(RequestRefresh, r))
  }

  /**
   A server subscription that the server does not know is not unsubscribed; the subscription starts again where
   it was.
   */
  lemma StartsAfterLoss(w: Server, maxQueue: int, events: seq<Event>, e: Event, r: SubRef)
    requires Honest(w) && maxQueue > 0
    requires var st := Exec(w, maxQueue, events); Admissible(w, st, e) && Current(st, r) && SaysLost(st, e, r)
    requires Current(Exec(w, maxQueue, events + [e]), r)
    ensures var st, st' := Exec(w, maxQueue, events), Exec(w, maxQueue, events + [e]);
      Starting(st.(pending := st.pending - {e.msg.frame.id}), st', r, st.recs[r].cursor, false)
  {
    OneStepMore(w, maxQueue, events, e);
    hide Exec;
    var st := Exec(w, maxQueue, events);
    StartingGround(st, e.msg.sub, r);
    LiveNamed(st, e.msg.sub);
    LossCases(st, e, r);
    hide *;
    LostStarts(st, e.conn, r, e.msg.frame.id);
  }

  lemma LiveNamed(st: State, sid: ServerSub)
    requires Inv(st) && sid in st.bySub
    ensures st.bySub[sid] in st.recs && st.recs[st.bySub[sid]].sub == sid && 0 !in st.pending
  {
    assert Routed(st.subs, st.recs, st.bySub, st.pending, st.requestSeq);
    hide Inv;
  }

  lemma LossCases(st: State, e: Event, r: SubRef)
    requires Rooted(st) && Enabled(st, e) && r in st.recs && SaysLost(st, e, r) && st.recs[r].sub == e.msg.sub
    requires 0 !in st.pending
    ensures Step(st, e) == ServerEnded(st.(pending := st.pending - {e.msg.frame.id}), e.conn, r)
  {
    hide ServerEnded, ReportAll;
    if e.msg.frame.id == 0 { assert st.pending - {0} == st.pending; }
  }

  lemma LostStarts(st: State, conn: int, r: SubRef, id: RequestId)
    requires Ground(st, r) && r in st.recs
    requires Current(ServerEnded(st.(pending := st.pending - {id}), conn, r), r)
    ensures Starting(st.(pending := st.pending - {id}), ServerEnded(st.(pending := st.pending - {id}), conn, r), r,
                     st.recs[r].cursor, false)
  {
    var st1 := st.(pending := st.pending - {id});
    var s2 := st.recs[r].(sub := 0);
    var st2 := st1.(recs := st1.recs[r := s2], bySub := st1.bySub - {st1.recs[r].sub});
    hide *;
    ForgetGround(st, id, r);
    EndedIs(st1, conn, r);
    StartsFrom(st1, st2, conn, r, s2);
  }

  lemma ForgetGround(st: State, id: RequestId, r: SubRef)
    requires Ground(st, r)
    ensures Ground(st.(pending := st.pending - {id}), r)
  {
  }

  lemma EndedIs(st: State, conn: int, r: SubRef)
    requires r in st.recs
    ensures ServerEnded(st, conn, r) ==
      Resubscribe(st.(recs := st.recs[r := st.recs[r].(sub := 0)], bySub := st.bySub - {st.recs[r].sub}), conn, r)
  {
    hide Resubscribe;
  }

  /** A position the server no longer has is given up, and the subscription subscribes at once without one. */
  lemma StartsWithoutCursor(w: Server, maxQueue: int, events: seq<Event>, e: Event, r: SubRef)
    requires Honest(w) && maxQueue > 0
    requires var st := Exec(w, maxQueue, events); Admissible(w, st, e) && SaysNoCursor(st, e, r)
    ensures var st, st' := Exec(w, maxQueue, events), Exec(w, maxQueue, events + [e]);
      && Current(st, r) && Current(st', r) && st'.recs[r] == st.recs[r].(cursor := 0)
      && e.msg.frame.id !in st'.pending && Awaits(st', st'.requestSeq, r) && st'.requestSeq > st.requestSeq
      && st'.consumers == st.consumers
  {
    OneStepMore(w, maxQueue, events, e);
    hide Exec;
    var st := Exec(w, maxQueue, events);
    PendingCurrent(st);
    RequestKnown(st, e.msg.frame.id);
    assert AwaitsToken(st, r, e.msg.frame.id) && Enabled(st, e);
    hide *;
    NoCursorCases(st, e, r);
  }

  /** The server refuses the subscribe of `r` because it no longer has the position. */
  predicate SaysNoCursor(st: State, e: Event, r: SubRef) {
    && e.FrameEvent? && st.conn == Some(e.conn) && e.msg.Message? && e.msg.frame.Error?
    && e.msg.frame.code == CursorInvalid && Awaits(st, e.msg.frame.id, r) && e.msg.frame.id !in st.unsubscribing
  }

  lemma NoCursorCases(st: State, e: Event, r: SubRef)
    requires Rooted(st) && Enabled(st, e) && Current(st, r) && SaysNoCursor(st, e, r)
    requires e.msg.frame.id != 0 && e.msg.frame.id <= st.requestSeq
    ensures var st' := Step(st, e);
      && Current(st', r) && st'.recs[r] == st.recs[r].(cursor := 0)
      && e.msg.frame.id !in st'.pending && Awaits(st', st'.requestSeq, r) && st'.requestSeq > st.requestSeq
      && st'.consumers == st.consumers
  {
    var st1 := st.(pending := st.pending - {e.msg.frame.id});
    var st2 := WithRec(st1, r, st1.recs[r].(cursor := 0));
    assert Step(st, e) == SubscribeServer(st2, e.conn, r) by {
      hide SubscribeServer, ReportAll;
    }
    assert Current(st2, r) && st2.recs[r] == st.recs[r].(cursor := 0);
    hide Rooted, Enabled;
  }

  lemma RequestKnown(st: State, id: RequestId)
    requires Inv(st) && id in st.pending
    ensures id != 0 && id <= st.requestSeq && Rooted(st)
  {
    assert Routed(st.subs, st.recs, st.bySub, st.pending, st.requestSeq);
    InvSound(st);
    hide Inv;
  }

  /** A connection token about to expire is fetched anew. */
  lemma RenewsConnection(w: Server, maxQueue: int, events: seq<Event>, e: Event)
    requires Honest(w) && maxQueue > 0
    requires var st := Exec(w, maxQueue, events);
      && Admissible(w, st, e) && e.FrameEvent? && st.conn == Some(e.conn) && e.msg.Message?
        && e.msg.frame.TokenExpiring?
    ensures ReauthTask(e.conn) in Exec(w, maxQueue, events + [e]).tasks
  {
    OneStepMore(w, maxQueue, events, e);
    hide Exec;
    var st := Exec(w, maxQueue, events);
    Underway(st);
    assert Enabled(st, e) && Rooted(st);
    hide Inv, Admissible, OnSubscribed, OnRequestError, ReportAll, OnSubFrame;
  }

  /** A subscription token about to expire is fetched anew, for the server subscription it was for. */
  lemma RenewsSubscription(w: Server, maxQueue: int, events: seq<Event>, e: Event, r: SubRef)
    requires Honest(w) && maxQueue > 0
    requires var st := Exec(w, maxQueue, events);
      && Admissible(w, st, e) && Current(st, r) && FrameOf(st, e, r)
      && e.msg.frame.SubscribeExpiring? && !OutOfOrder(st.recs[r], e.msg.seqNo)
    ensures var st := Exec(w, maxQueue, events);
      RefreshTask(e.conn, r, st.recs[r].sub) in Exec(w, maxQueue, events + [e]).tasks
  {
    OneStepMore(w, maxQueue, events, e);
    hide Exec;
    var st := Exec(w, maxQueue, events);
    Underway(st);
    FrameGives(st, e, r);
    assert st.sess.Some?;
    hide *;
    ExpiringCases(st, e.conn, e.msg, r);
  }

  lemma ExpiringCases(st: State, conn: int, msg: Incoming, r: SubRef)
    requires Rooted(st) && r in st.recs && st.sess.Some? && msg.Message? && msg.sub in st.bySub
      && st.bySub[msg.sub] == r
    requires msg.frame.SubscribeExpiring? && !OutOfOrder(st.recs[r], msg.seqNo)
    ensures RefreshTask(conn, r, st.recs[r].sub) in OnSubFrame(st, conn, msg.sub, msg.seqNo, msg.frame).tasks
  {
    InOrder(st, conn, msg, r);
    hide OnSubFrame;
    ExpiringTask(WithRec(st, r, Noted(st.recs[r], msg.seqNo)), conn, r);
  }

  lemma ExpiringTask(st: State, conn: int, r: SubRef)
    requires r in st.recs && st.sess.Some?
    ensures RefreshTask(conn, r, st.recs[r].sub) in Process(st, conn, r, SubscribeExpiring).tasks
  {
  }

  /** A frame in order is processed. */
  lemma InOrder(st: State, conn: int, msg: Incoming, r: SubRef)
    requires Rooted(st) && r in st.recs && msg.Message? && msg.sub in st.bySub && st.bySub[msg.sub] == r
    requires !OutOfOrder(st.recs[r], msg.seqNo)
    ensures OnSubFrame(st, conn, msg.sub, msg.seqNo, msg.frame) ==
      Process(WithRec(st, r, Noted(st.recs[r], msg.seqNo)), conn, r, msg.frame)
    ensures Numbered(st.recs[r], Noted(st.recs[r], msg.seqNo))
  {
    hide Process, Resubscribe;
  }

  /** A fresh token for the live server subscription it was fetched for is sent to the server, once. */
  lemma SendsFreshToken(w: Server, maxQueue: int, events: seq<Event>, e: Event, r: SubRef)
    requires Honest(w) && maxQueue > 0
    requires var st := Exec(w, maxQueue, events);
      && Admissible(w, st, e) && Current(st, r) && e.RefreshTokenEvent? && e.r == r && e.result == Token
    ensures var st, st' := Exec(w, maxQueue, events), Exec(w, maxQueue, events + [e]);
      if st.conn == Some(e.conn) && st.recs[r].sub == e.serverSub then
        && st'.requestSeq == st.requestSeq + 1 && st'.requestSeq !in st.pending
        && st'.pending == st.pending[st'.requestSeq := Request(RequestRefresh, r)]
      else st'.pending == st.pending
  {
    OneStepMore(w, maxQueue, events, e);
    hide Exec;
    var st := Exec(w, maxQueue, events);
    Underway(st);
    assert Enabled(st, e) && Rooted(st) && Current(st, r);
    hide Inv, Admissible, Deliver, Rooted;
  }

  lemma Underway(st: State)
    requires Inv(st)
    ensures st.subs != map[] ==> st.sess.Some?
    ensures Rooted(st) && forall id :: id in st.pending ==> id <= st.requestSeq
  {
    assert Wired(st) && Routed(st.subs, st.recs, st.bySub, st.pending, st.requestSeq);
    InvSound(st);
    hide Inv;
  }

  // ---------- What the server is told ----------

  /** A subscription is gone; the server is told of it if it had a server subscription and the run goes on. */
  predicate Gone(st: State, st': State, s: Sub) {
    && st'.subs == st.subs - {s.account}
    && if st'.subs == map[] then st'.sess.None? && st'.conn.None?
       else if st.conn.Some? && s.sub != 0 then
         && st'.sess == st.sess && st'.conn == st.conn && st'.requestSeq == st.requestSeq + 1
         && st'.unsubscribing == st.unsubscribing + {st'.requestSeq}
       else st'.sess == st.sess && st'.conn == st.conn && st'.unsubscribing == st.unsubscribing
  }

  /** The last consumer to leave ends its subscription: the server is told if others go on, and else the run is over. */
  lemma LastLeaves(w: Server, maxQueue: int, events: seq<Event>, r: SubRef, c: ConsumerRef)
    requires Honest(w) && maxQueue > 0
    requires var st := Exec(w, maxQueue, events);
      Admissible(w, st, RemoveEvent(r, c)) && Current(st, r) && st.recs[r].consumers == {c}
    ensures var st, st' := Exec(w, maxQueue, events), Exec(w, maxQueue, events + [RemoveEvent(r, c)]);
      Gone(st, st', st.recs[r])
  {
    OneStepMore(w, maxQueue, events, RemoveEvent(r, c));
    hide Exec, Inv, Admissible, Honest;
    LeftCases(Exec(w, maxQueue, events), r, c);
  }

  lemma LeftCases(st: State, r: SubRef, c: ConsumerRef)
    requires Current(st, r) && st.recs[r].consumers == {c}
    ensures Gone(st, Remove(st, r, c), st.recs[r])
  {
    var st1 := Removed(st, r, c);
    assert st.recs[r].consumers - {c} == {};
    assert Remove(st, r, c) == Teardown(st1, r) && Current(st1, r);
    hide Remove;
  }

  /** A confirmation nobody waits for, of a server subscription, is taken back; the answer to a refresh is noted. */
  lemma StrayTakenBack(w: Server, maxQueue: int, events: seq<Event>, e: Event)
    requires Honest(w) && maxQueue > 0
    requires var st := Exec(w, maxQueue, events);
      Admissible(w, st, e) && e.FrameEvent? && st.conn == Some(e.conn) && e.msg.Message?
    ensures var st, st' := Exec(w, maxQueue, events), Exec(w, maxQueue, events + [e]);
      && (e.msg.frame.Subscribed? && e.msg.sub != 0 && !Awaited(st, e.msg.frame.id) ==>
            && st'.requestSeq == st.requestSeq + 1 && st'.unsubscribing == st.unsubscribing + {st'.requestSeq}
            && st'.recs == st.recs && st'.bySub == st.bySub)
      && (e.msg.frame.SubscribeRefreshed? ==> st' == st.(pending := st.pending - {e.msg.frame.id}))
  {
    OneStepMore(w, maxQueue, events, e);
    var st := Exec(w, maxQueue, events);
    Underway(st);
    assert Enabled(st, e);
    hide *;
    ControlCases(st, e);
    TakenBack(st);
    if e.msg.frame.Subscribed? && !Awaited(st, e.msg.frame.id) { StrayCases(st, e.msg.frame.id, e.msg.sub); }
  }

  lemma TakenBack(st: State)
    ensures var st' := Unsubscribe(st);
      && st'.requestSeq == st.requestSeq + 1 && st'.unsubscribing == st.unsubscribing + {st'.requestSeq}
      && st'.recs == st.recs && st'.bySub == st.bySub
  {
  }

  lemma ControlCases(st: State, e: Event)
    requires Rooted(st) && Enabled(st, e) && e.FrameEvent? && st.conn == Some(e.conn) && e.msg.Message?
    ensures e.msg.frame.Subscribed? ==> Step(st, e) == OnSubscribed(st, e.msg.frame.id, e.msg.sub)
    ensures e.msg.frame.SubscribeRefreshed? ==> Step(st, e) == st.(pending := st.pending - {e.msg.frame.id})
  {
    hide OnSubscribed, OnSubFrame, OnRequestError, ReportAll;
  }

  // ---------- Delays ----------

  /** The server made progress on the subscription: data, a position or readiness. */
  predicate Progress(s: Sub, msg: Incoming) {
    && msg.Message? && !OutOfOrder(s, msg.seqNo)
    && (msg.frame.UnitFrame? || msg.frame.Covered? || msg.frame.ReadyFrame?
        || (msg.frame.SnapshotEnd? && !ShortSnapshot(s, msg)))
  }

  /** After progress the next loss of the server subscription is repaired at once again. */
  lemma ProgressForgets(w: Server, maxQueue: int, events: seq<Event>, e: Event, r: SubRef)
    requires Honest(w) && maxQueue > 0
    requires var st := Exec(w, maxQueue, events);
      Admissible(w, st, e) && Current(st, r) && FrameOf(st, e, r) && Progress(st.recs[r], e.msg)
    requires Current(Exec(w, maxQueue, events + [e]), r)
    ensures Exec(w, maxQueue, events + [e]).recs[r].retries == 0
  {
    OneStepMore(w, maxQueue, events, e);
    hide Exec;
    var st := Exec(w, maxQueue, events);
    Underway(st);
    InvSound(st);
    FrameGives(st, e, r);
    assert r in st.recs;
    hide *;
    ProgressCases(st, e.conn, e.msg, r);
  }

  /** What such a frame makes of the record, and what is announced, if anything. */
  lemma ProgressRec(st: State, conn: int, r: SubRef, frame: Frame) returns (s2: Sub, event: Option<StreamEvent>)
    requires r in st.recs && (frame.UnitFrame? || frame.Covered? || frame.ReadyFrame?
      || (frame.SnapshotEnd? && st.recs[r].staging && |st.recs[r].staged| == frame.count))
    ensures s2.retries == 0 && SameSeat(st, r, s2)
    ensures Process(st, conn, r, frame) ==
      if event.None? then WithRec(st, r, s2) else Deliver(WithRec(st, r, s2), r, event.value)
  {
    var s := st.recs[r];
    hide Deliver, Resubscribe;
    match frame
    case SnapshotEnd(count, cursor) => s2, event := SnapshotRec(s, cursor), Some(Snapshot(s.staged));
    case UnitFrame(changed, removed, next) =>
      s2, event := UnitRec(s, changed, removed, next), Some(Unit(changed, removed));
    case ReadyFrame =>
      if s.ready { s2, event := s.(retries := 0), None; }
      else { s2, event := s.(retries := 0, ready := true), Some(Ready); }
    case Covered(cursor) => s2, event := s.(cursor := cursor, retries := 0), None;
  }

  lemma ProgressMeans(s: Sub, msg: Incoming)
    requires Progress(s, msg)
    ensures var frame, noted := msg.frame, Noted(s, msg.seqNo);
      && !OutOfOrder(s, msg.seqNo)
      && (frame.UnitFrame? || frame.Covered? || frame.ReadyFrame?
          || (frame.SnapshotEnd? && noted.staging && |noted.staged| == frame.count))
  {
  }

  lemma ProgressCases(st: State, conn: int, msg: Incoming, r: SubRef)
    requires Sound(st) && Rooted(st) && Current(st, r) && r in st.recs
    requires msg.Message? && msg.sub in st.bySub && st.bySub[msg.sub] == r
    requires Progress(st.recs[r], msg) && Current(OnSubFrame(st, conn, msg.sub, msg.seqNo, msg.frame), r)
    ensures OnSubFrame(st, conn, msg.sub, msg.seqNo, msg.frame).recs[r].retries == 0
  {
    hide *;
    var s := Noted(st.recs[r], msg.seqNo);
    var st1 := WithRec(st, r, s);
    ProgressMeans(st.recs[r], msg);
    InOrder(st, conn, msg, r);
    NumberedCrowd(st, r, s);
    CrowdSound(st, st1);
    var s2, event := ProgressRec(st1, conn, r, msg.frame);
    if event.Some? { DeliveredRec(st1, r, s2, event.value); } else { RecAfter(st1, r, s2); }
  }

  lemma RecAfter(st: State, r: SubRef, s: Sub)
    ensures WithRec(st, r, s).recs[r] == s
  {
  }

  lemma DeliveredRec(st: State, r: SubRef, s: Sub, event: StreamEvent)
    requires Sound(st) && Current(st, r) && r in st.recs && SameSeat(st, r, s)
    requires Current(Deliver(WithRec(st, r, s), r, event), r)
    ensures Deliver(WithRec(st, r, s), r, event).recs[r].retries == s.retries
  {
    EditCrowd(st, r, s);
    CrowdSound(st, WithRec(st, r, s));
    assert Current(WithRec(st, r, s), r);
    hide Sound, Deliver;
    OutlivedDelivery(WithRec(st, r, s), r, event);
  }

  /** A subscribe without a token, and one not confirmed in time, is given up and tried again after a delay. */
  predicate Fails(st: State, e: Event, r: SubRef) {
    || (e.SubscribeTokenEvent? && e.r == r && e.result == Failed && AwaitsToken(st, r, e.id))
    || (e.AckEvent? && e.r == r && r in st.recs && st.recs[r].ackTimer == Some(e.timer) && st.recs[r].confirmed
        && AwaitsToken(st, r, e.timer.request))
  }

  function FailedRequest(e: Event): RequestId {
    match e
    case SubscribeTokenEvent(_, _, id, _) => id
    case AckEvent(_, timer) => timer.request
    case _ => 0
  }

  lemma FailureDelays(w: Server, maxQueue: int, events: seq<Event>, e: Event, r: SubRef)
    requires Honest(w) && maxQueue > 0
    requires var st := Exec(w, maxQueue, events); Admissible(w, st, e) && Fails(st, e, r)
    requires Current(Exec(w, maxQueue, events + [e]), r)
    ensures var st, st' := Exec(w, maxQueue, events), Exec(w, maxQueue, events + [e]);
      && Current(st, r) && st'.recs[r].retries == st.recs[r].retries + 1 && st'.recs[r].retryTimer.Some?
      && st'.recs[r].cursor == st.recs[r].cursor && st'.pending == st.pending - {FailedRequest(e)}
  {
    OneStepMore(w, maxQueue, events, e);
    hide Exec;
    var st := Exec(w, maxQueue, events);
    Underway(st);
    InvSound(st);
    PendingCurrent(st);
    assert Enabled(st, e) && AwaitsToken(st, r, FailedRequest(e));
    if e.AckEvent? { AckOnTime(st, e.timer, r); }
    hide *;
    if e.SubscribeTokenEvent? { TokenDelays(st, e, r); } else { AckDelays(st, e, r); }
  }

  lemma AckOnTime(st: State, timer: Timer, r: SubRef)
    requires Inv(st) && Current(st, r) && st.recs[r].ackTimer == Some(timer) && AwaitsToken(st, r, timer.request)
    ensures st.conn == Some(timer.conn) && st.recs[r].sub == 0
  {
    assert Settled(st, r) && Wired(st);
    assert Ticketed(st.pending, st.conn, st.tasks, st.sent, st.requestSeq);
    assert Awaits(st, timer.request, r);
  }

  lemma ReportStays(st: State, st1: State, r: SubRef, failure: Failure)
    requires Sound(st) && SameCrowd(st, st1) && Current(st, r) && Current(Report(st1, r, failure), r)
    requires st1.recs[r] == st.recs[r].(ackTimer := st1.recs[r].ackTimer)
    ensures var st2 := Report(st1, r, failure);
      && st2.pending == st1.pending && st2.conn == st1.conn && st2.sess == st1.sess
      && st2.recs[r] == st1.recs[r].(consumers := st2.recs[r].consumers)
  {
    CrowdSound(st, st1);
    assert Current(st1, r);
    hide Sound, Deliver;
    OutlivedDelivery(st1, r, StreamError(failure));
  }

  lemma RetryDelays(st: State, conn: int, r: SubRef)
    requires r in st.recs
    ensures var st' := RetrySubscribe(st, conn, r);
      && (Current(st', r) <==> Current(st, r)) && st'.pending == st.pending
      && st'.recs[r] == st.recs[r].(retries := st.recs[r].retries + 1, retryTimer := st'.recs[r].retryTimer)
      && (st.sess.Some? ==> st'.recs[r].retryTimer.Some?)
  {
  }

  lemma TokenDelays(st: State, e: Event, r: SubRef)
    requires Sound(st) && Rooted(st) && Enabled(st, e) && Current(st, r) && st.sess.Some? && e.SubscribeTokenEvent?
    requires Fails(st, e, r) && Current(Step(st, e), r)
    ensures var st' := Step(st, e);
      && st'.recs[r].retries == st.recs[r].retries + 1 && st'.recs[r].retryTimer.Some?
      && st'.recs[r].cursor == st.recs[r].cursor && st'.pending == st.pending - {e.id}
  {
    var st1 := st.(tasks := st.tasks - {SubscribeTask(e.conn, r, e.id)}, pending := st.pending - {e.id});
    var mid := Report(st1, r, Transient);
    FailedCases(st, e, r);
    assert r in st.recs;
    hide *;
    RetryDelays(mid, e.conn, r);
    ReportStays(st, st1, r, Transient);
  }

  lemma FailedCases(st: State, e: Event, r: SubRef)
    requires Enabled(st, e) && Rooted(st) && e.SubscribeTokenEvent? && Fails(st, e, r)
    ensures var st1 := st.(tasks := st.tasks - {SubscribeTask(e.conn, r, e.id)}, pending := st.pending - {e.id});
      SameCrowd(st, st1) && Step(st, e) == RetrySubscribe(Report(st1, r, Transient), e.conn, r)
  {
    hide Deliver, RetrySubscribe, Terminate;
  }

  lemma AckDelays(st: State, e: Event, r: SubRef)
    requires Sound(st) && Rooted(st) && Enabled(st, e) && Current(st, r) && st.sess.Some? && e.AckEvent?
    requires Fails(st, e, r) && Current(Step(st, e), r) && st.conn == Some(e.timer.conn) && st.recs[r].sub == 0
    ensures var st' := Step(st, e);
      && st'.recs[r].retries == st.recs[r].retries + 1 && st'.recs[r].retryTimer.Some?
      && st'.recs[r].cursor == st.recs[r].cursor && st'.pending == st.pending - {e.timer.request}
  {
    var st1 := WithRec(st, r, st.recs[r].(ackTimer := None)).(pending := st.pending - {e.timer.request});
    var mid := Report(st1, r, SubscribeTimeout);
    ExpiredCases(st, e, r);
    assert st1.sess == st.sess && st1.conn == st.conn && st1.recs[r] == st.recs[r].(ackTimer := None) && r in st.recs;
    hide *;
    RetryDelays(mid, e.timer.conn, r);
    ReportStays(st, st1, r, SubscribeTimeout);
  }

  lemma ExpiredCases(st: State, e: Event, r: SubRef)
    requires Enabled(st, e) && Rooted(st) && e.AckEvent? && Fails(st, e, r)
    ensures var st1 := WithRec(st, r, st.recs[r].(ackTimer := None)).(pending := st.pending - {e.timer.request});
      var mid := Report(st1, r, SubscribeTimeout);
      && SameCrowd(st, st1)
      && Step(st, e) == if mid.conn == Some(e.timer.conn) && Current(mid, r) && mid.recs[r].sub == 0
        then RetrySubscribe(mid, e.timer.conn, r) else mid
  {
    hide Deliver, RetrySubscribe, Terminate;
  }

  // ---------- Reconnecting ----------

  predicate SameDial(st: State, st': State) {
    st'.sess == st.sess && st'.reconnectAttempt == st.reconnectAttempt && st'.reconnectTimer == st.reconnectTimer
  }

  lemma TeardownDials(st: State, r: SubRef)
    requires r in st.recs
    ensures var st' := Teardown(st, r); st'.sess.Some? ==> SameDial(st, st')
  {
    hide Detach;
  }

  lemma DeliverDials(st: State, r: SubRef, event: StreamEvent)
    requires r in st.recs
    ensures var st' := Deliver(st, r, event); st'.sess.Some? ==> SameDial(st, st')
  {
    var st1 := OfferOnly(st, r, st.recs[r].consumers, event);
    assert SameDial(st, st1) && st1.sess == st.sess && r in st1.recs;
    hide Teardown, OfferOnly;
    TeardownDials(st1, r);
  }

  lemma {:induction false} ReportAllDials(st: State, failure: Failure, order: seq<SubRef>)
    requires forall i :: 0 <= i < |order| ==> order[i] in st.recs
    ensures var st' := ReportAll(st, failure, order);
      st'.sess.Some? ==> SameDial(st, st')
    decreases |order|
  {
    hide Deliver;
    if order != [] {
      ReportAllDials(st, failure, Init(order));
      DeliverDials(ReportAll(st, failure, Init(order)), Last(order), StreamError(failure));
    }
  }

  lemma {:induction false} NotifyAllDials(st: State, order: seq<SubRef>)
    requires forall i :: 0 <= i < |order| ==> order[i] in st.recs
    ensures var st' := NotifyAllDisconnected(st, order);
      st'.sess.Some? ==> SameDial(st, st')
    decreases |order|
  {
    hide Deliver;
    if order != [] {
      NotifyAllDials(st, Init(order));
      var mid := NotifyAllDisconnected(st, Init(order));
      DeliverDials(WithState(mid, Last(order), SubDisconnected), Last(order), Disconnected);
    }
  }

  /** This run's connect failed, or its connection was lost for a reason that does not end its subscriptions. */
  predicate LosesConnection(st: State, e: Event) {
    || (e.ConnectEvent? && st.sess == Some(e.sess) && e.result == Failed)
    || (e.ClosedEvent? && st.conn == Some(e.conn) && e.code != 4400 && e.code != 4403)
  }

  /**
   A run that outlives a failed connect or a lost connection waits for its next one, one attempt further than
   before; a connection that was stable makes it the first attempt again.
   */
  lemma BacksOff(w: Server, maxQueue: int, events: seq<Event>, e: Event)
    requires Honest(w) && maxQueue > 0
    requires var st := Exec(w, maxQueue, events); Admissible(w, st, e) && LosesConnection(st, e)
    requires Exec(w, maxQueue, events + [e]).sess.Some?
    ensures var st, st' := Exec(w, maxQueue, events), Exec(w, maxQueue, events + [e]);
      && st'.conn.None? && st'.reconnectTimer.Some?
      && st'.reconnectAttempt == 1 + if e.ClosedEvent? && e.stable then 0 else st.reconnectAttempt
  {
    OneStepMore(w, maxQueue, events, e);
    RunKeeps(w, maxQueue, events + [e]);
    hide Exec;
    var st, st' := Exec(w, maxQueue, events), Exec(w, maxQueue, events + [e]);
    assert Enabled(st, e) && Rooted(st);
    hide *;
    LinkedRun(st);
    LinkedRun(st');
    StepFails(st, e);
  }

  lemma LinkedRun(st: State)
    requires Inv(st)
    ensures st.sess.Some? ==> st.subs != map[]
    ensures st.sess.Some? && st.reconnectTimer.Some? ==> st.conn.None?
    ensures st.conn.Some? ==> st.subs != map[]
  {
    assert Wired(st) && Linked(st);
    hide Inv;
  }

  lemma StepFails(st: State, e: Event)
    requires Enabled(st, e) && Rooted(st) && LosesConnection(st, e) && (st.conn.Some? ==> st.subs != map[])
    requires Step(st, e).sess.Some?
    ensures var st' := Step(st, e);
      && st'.reconnectTimer.Some?
      && st'.reconnectAttempt == 1 + if e.ClosedEvent? && e.stable then 0 else st.reconnectAttempt
  {
    VisitsRecs(st, e.order);
    hide Enabled, Rooted, ConnectReturned, SocketClosed;
    if e.ConnectEvent? {
      ConnectFails(st, e);
    } else {
      SocketFails(st, e, if e.stable then Detach(st).(reconnectAttempt := 0) else Detach(st));
    }
  }

  lemma ConnectFails(st: State, e: Event)
    requires e.ConnectEvent? && st.sess == Some(e.sess) && e.result == Failed
    requires forall i :: 0 <= i < |e.order| ==> e.order[i] in st.recs
    requires ConnectReturned(st, e.sess, e.result, e.order).sess.Some?
    ensures var st' := ConnectReturned(st, e.sess, e.result, e.order);
      st'.reconnectTimer.Some? && st'.reconnectAttempt == 1 + st.reconnectAttempt
  {
    var st1 := st.(tasks := st.tasks - {ConnectTask(e.sess)}, connecting := false);
    ConnectLoses(st, st1, e);
    hide ReportAll, ConnectReturned;
    ReportAllDials(st1, Transient, e.order);
  }

  lemma ConnectLoses(st: State, st1: State, e: Event)
    requires e.ConnectEvent? && st.sess == Some(e.sess) && e.result == Failed
    requires forall i :: 0 <= i < |e.order| ==> e.order[i] in st.recs
    requires st1 == st.(tasks := st.tasks - {ConnectTask(e.sess)}, connecting := false)
    ensures ConnectReturned(st, e.sess, e.result, e.order) == ScheduleReconnect(ReportAll(st1, Transient, e.order))
  {
    hide ReportAll, ScheduleReconnect;
  }

  lemma SocketFails(st: State, e: Event, st2: State)
    requires e.ClosedEvent? && st.conn == Some(e.conn) && e.code != 4400 && e.code != 4403
    requires st.subs != map[] && forall i :: 0 <= i < |e.order| ==> e.order[i] in st.recs
    requires st2 == if e.stable then Detach(st).(reconnectAttempt := 0) else Detach(st)
    requires SocketClosed(st, e.conn, e.code, e.stable, e.order).sess.Some?
    ensures var st' := SocketClosed(st, e.conn, e.code, e.stable, e.order);
      && st'.reconnectTimer.Some? && st'.reconnectAttempt == 1 + (if e.stable then 0 else st.reconnectAttempt)
  {
    NotifyAllDials(ScheduleReconnect(st2), e.order);
    hide NotifyAllDisconnected;
  }
}
