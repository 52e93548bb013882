/**
 What a section tells the consumers of one subscription, and whether the
 subscription outlives it. `Heard` says that each of them was offered the same
 events in the same order, and at the end finished with an error if the
 subscription was; it composes over the calls a section makes.
 */
module OrderStreamScripts {
  import opened Basics
  import opened OrderStreamModel
  import opened OrderStreamInvariant
  import opened OrderStreamHelpers
  import opened OrderStreamConsumers
  import opened OrderStreamOwned

  /** Events for every consumer of a subscription, and the error that ends it. */
  datatype Script = Script(events: seq<StreamEvent>, end: Option<Failure>)

  const Nothing := Script([], None)

  function Telling(events: seq<StreamEvent>): Script {
    Script(events, None)
  }

  /** A consumer after the script: events that find its queue full close it, what comes after it is closed is lost. */
  function Played(maxQueue: int, k: Consumer, script: Script): Consumer {
    var told := OfferedEach(maxQueue, k, script.events);
    if script.end.Some? then Finished(told, script.end) else told
  }

  ghost predicate Heard(st: State, st': State, q: SubRef, script: Script) {
    && st'.maxQueue == st.maxQueue && q in st.recs && q in st'.recs
    && (forall c :: c in st.consumers && st.consumers[c].chClosed ==>
          c in st'.consumers && st'.consumers[c] == st.consumers[c])
    && (forall c :: c in st.recs[q].consumers && c in st.consumers ==>
          && c in st'.consumers && st'.consumers[c] == Played(st.maxQueue, st.consumers[c], script)
          && (c in st'.recs[q].consumers <==> !st'.consumers[c].chClosed))
    && st'.recs[q].consumers <= st.recs[q].consumers
    && (Current(st', q) <==> Current(st, q) && st'.recs[q].consumers != {})
  }

  // ---------- Composing ----------

  lemma {:induction false} OfferedToClosed(maxQueue: int, k: Consumer, events: seq<StreamEvent>)
    requires k.closed
    ensures OfferedEach(maxQueue, k, events) == k
    decreases |events|
  {
    if events != [] { OfferedToClosed(maxQueue, k, Init(events)); }
  }

  lemma {:induction false} OfferedConcat(maxQueue: int, k: Consumer, a: seq<StreamEvent>, b: seq<StreamEvent>)
    ensures OfferedEach(maxQueue, k, a + b) == OfferedEach(maxQueue, OfferedEach(maxQueue, k, a), b)
    decreases |b|
  {
    if b == [] {
      assert a + b == a;
    } else {
      assert Init(a + b) == a + Init(b) && Last(a + b) == Last(b);
      OfferedConcat(maxQueue, k, a, Init(b));
    }
  }

  lemma {:induction false} OfferedLatch(maxQueue: int, k: Consumer, events: seq<StreamEvent>)
    requires k.chClosed ==> k.closed
    ensures var k' := OfferedEach(maxQueue, k, events);
      && (k'.chClosed ==> k'.closed)
      && (!k.chClosed && k'.chClosed ==> k'.err.Some?)
    decreases |events|
  {
    if events != [] { OfferedLatch(maxQueue, k, Init(events)); }
  }

  lemma PlayedTwice(maxQueue: int, k: Consumer, a: seq<StreamEvent>, b: Script)
    requires k.chClosed ==> k.closed
    ensures var mid := OfferedEach(maxQueue, k, a); var both := Played(maxQueue, k, Script(a + b.events, b.end));
      && both == Played(maxQueue, mid, b)
      && (!k.chClosed && mid.chClosed ==> both == mid)
  {
    OfferedConcat(maxQueue, k, a, b.events);
    OfferedLatch(maxQueue, k, a);
    var mid := OfferedEach(maxQueue, k, a);
    if mid.chClosed { OfferedToClosed(maxQueue, mid, b.events); }
  }

  lemma HeardTrans(x: State, y: State, z: State, q: SubRef, a: seq<StreamEvent>, b: Script)
    requires Sound(x) && Heard(x, y, q, Telling(a)) && Heard(y, z, q, b)
    ensures Heard(x, z, q, Script(a + b.events, b.end))
  {
    forall c | c in x.recs[q].consumers && c in x.consumers
      ensures c in z.consumers && z.consumers[c] == Played(x.maxQueue, x.consumers[c], Script(a + b.events, b.end))
      ensures c in z.recs[q].consumers <==> !z.consumers[c].chClosed
    {
      PlayedTwice(x.maxQueue, x.consumers[c], a, b);
    }
  }

  lemma QuietThen(x: State, y: State, z: State, q: SubRef, script: Script)
    requires Sound(x) && Heard(x, y, q, Nothing) && Heard(y, z, q, script)
    ensures Heard(x, z, q, script)
  {
    HeardTrans(x, y, z, q, [], script);
    assert [] + script.events == script.events;
  }

  lemma FinishedLatch(k: Consumer, err: Option<Failure>)
    ensures Finished(k, err).chClosed && Finished(k, err).closed
  {
  }

  lemma ThenQuiet(x: State, y: State, z: State, q: SubRef, script: Script)
    requires Sound(x) && Heard(x, y, q, script) && Heard(y, z, q, Nothing)
    ensures Heard(x, z, q, script)
  {
    if script.end.None? {
      HeardTrans(x, y, z, q, script.events, Nothing);
      assert script.events + [] == script.events;
    } else {
      forall c | c in x.recs[q].consumers && c in x.consumers ensures c in y.consumers && y.consumers[c].chClosed {}
    }
  }

  // ---------- The pieces ----------

  /** Nobody joins, leaves or is told anything. */
  ghost predicate SameCrowd(st: State, st': State) {
    && st'.maxQueue == st.maxQueue && st'.subs == st.subs && st'.consumers == st.consumers
    && st'.recs.Keys == st.recs.Keys
    && (forall q :: q in st.recs ==>
          && st'.recs[q].consumers == st.recs[q].consumers && st'.recs[q].account == st.recs[q].account
          && (st'.recs[q].sub == st.recs[q].sub || st'.recs[q].sub == 0 || Current(st, q)))
  }

  predicate Peopled(st: State, q: SubRef) {
    Current(st, q) ==> st.recs[q].consumers != {}
  }

  lemma CrowdHears(st: State, st': State, q: SubRef)
    requires Sound(st) && SameCrowd(st, st') && q in st.recs && Peopled(st, q)
    ensures Heard(st, st', q, Nothing)
  {
  }

  /** What one subscription is told is nothing to the others. */
  function For(q: SubRef, r: SubRef, script: Script): Script {
    if q == r then script else Nothing
  }

  lemma OneEvent(maxQueue: int, k: Consumer, event: StreamEvent)
    ensures Played(maxQueue, k, Telling([event])) == Offered(maxQueue, k, event)
    ensures Played(maxQueue, k, Nothing) == k
  {
    assert Init([event]) == [] && OfferedEach(maxQueue, k, []) == k;
  }

  /** `Heard`, but for whether the subscription is still there. */
  ghost predicate Reached(st: State, st': State, q: SubRef, script: Script) {
    && st'.maxQueue == st.maxQueue && q in st.recs && q in st'.recs
    && (forall c :: c in st.consumers && st.consumers[c].chClosed ==>
          c in st'.consumers && st'.consumers[c] == st.consumers[c])
    && (forall c :: c in st.recs[q].consumers && c in st.consumers ==>
          && c in st'.consumers && st'.consumers[c] == Played(st.maxQueue, st.consumers[c], script)
          && (c in st'.recs[q].consumers <==> !st'.consumers[c].chClosed))
    && st'.recs[q].consumers <= st.recs[q].consumers
  }

  /** Before the test whether the last consumer was lost. */
  lemma OfferOnlyReaches(st: State, r: SubRef, event: StreamEvent, q: SubRef)
    requires Sound(st) && r in st.recs && q in st.recs
    ensures Reached(st, OfferOnly(st, r, st.recs[r].consumers, event), q, For(q, r, Telling([event])))
  {
    forall c | c in st.recs[q].consumers ensures c in st.consumers && st.consumers[c].owner == q {}
    forall c | c in st.recs[q].consumers
      ensures Played(st.maxQueue, st.consumers[c], For(q, r, Telling([event]))) ==
        if q == r then Offered(st.maxQueue, st.consumers[c], event) else st.consumers[c]
    {
      OneEvent(st.maxQueue, st.consumers[c], event);
    }
  }

  lemma OneGone(st: State, r: SubRef, q: SubRef)
    requires Sound(st) && Current(st, r) && q in st.recs && st.recs[r].consumers == {}
    ensures var st' := TeardownOne(st, r);
      && st'.maxQueue == st.maxQueue && st'.consumers == st.consumers
      && st'.recs[q].consumers == st.recs[q].consumers
      && (Current(st', q) <==> Current(st, q) && q != r)
  {
    assert FinishedIn(st.consumers, {}, None) == st.consumers;
  }

  lemma ShutdownCrowd(st: State, q: SubRef)
    requires q in st.recs
    ensures var st' := Shutdown(st);
      && st'.maxQueue == st.maxQueue && st'.consumers == st.consumers
      && st'.recs[q].consumers == st.recs[q].consumers && (Current(st', q) <==> Current(st, q))
  {
  }

  /** Tearing down a subscription without consumers tells nobody anything, and ends it alone. */
  lemma TeardownEmpty(st: State, r: SubRef, q: SubRef)
    requires Sound(st) && r in st.recs && q in st.recs && st.recs[r].consumers == {}
    ensures var st' := Teardown(st, r);
      && st'.maxQueue == st.maxQueue && st'.consumers == st.consumers
      && st'.recs[q].consumers == st.recs[q].consumers
      && (Current(st', q) <==> Current(st, q) && q != r)
  {
    hide TeardownOne, Shutdown, Sound;
    if Current(st, r) {
      OneGone(st, r, q);
      ShutdownCrowd(TeardownOne(st, r), q);
    }
  }

  lemma ReachedHeard(st: State, mid: State, st': State, q: SubRef, script: Script)
    requires Reached(st, mid, q, script)
    requires st'.maxQueue == mid.maxQueue && st'.consumers == mid.consumers && q in st'.recs
    requires st'.recs[q].consumers == mid.recs[q].consumers
    requires Current(st', q) <==> Current(st, q) && st'.recs[q].consumers != {}
    ensures Heard(st, st', q, script)
  {
  }

  lemma DeliverHeard(st: State, r: SubRef, event: StreamEvent, q: SubRef)
    requires Sound(st) && r in st.recs && q in st.recs && Peopled(st, q)
    ensures Sound(Deliver(st, r, event)) && Heard(st, Deliver(st, r, event), q, For(q, r, Telling([event])))
  {
    var part := st.recs[r].consumers;
    var st1 := OfferOnly(st, r, part, event);
    OwnersMatch(st, r);
    OfferOnlyReaches(st, r, event, q);
    OfferOnlyOwned(st, r, part, event);
    OfferStaysOwned(st, r, part, event);
    StaysListed(st, r, event, q);
    hide Teardown, OfferOnly, OfferedIn, Sound, Reached, Heard;
    if DroppedBy(st, part) != {} && st1.recs[r].consumers == {} {
      TeardownEmpty(st1, r, q);
    }
    ReachedHeard(st, st1, Deliver(st, r, event), q, For(q, r, Telling([event])));
  }

  lemma OwnersMatch(st: State, r: SubRef)
    requires Sound(st) && r in st.recs
    ensures forall c :: c in st.recs[r].consumers && c in st.consumers ==> st.consumers[c].owner == r
  {
  }

  lemma StaysListed(st: State, r: SubRef, event: StreamEvent, q: SubRef)
    requires r in st.recs && q in st.recs && Peopled(st, q)
    ensures var part := st.recs[r].consumers; var st1 := OfferOnly(st, r, part, event);
      && (Current(st1, q) <==> Current(st, q))
      && (DroppedBy(st, part) == {} ==> st1.recs[r].consumers == part)
      && (q != r ==> st1.recs[q].consumers == st.recs[q].consumers)
  {
  }

  // ---------- Sections ----------

  ghost predicate Told(st: State, st': State, q: SubRef, script: Script) {
    Sound(st') && Heard(st, st', q, script) && Peopled(st', q)
  }

  lemma QuietTold(st: State, st': State, q: SubRef)
    requires Sound(st) && SameCrowd(st, st') && q in st.recs && Peopled(st, q)
    ensures Told(st, st', q, Nothing)
  {
    CrowdHears(st, st', q);
    CrowdSound(st, st');
  }

  lemma CrowdSound(st: State, st': State)
    requires Sound(st) && SameCrowd(st, st')
    ensures Sound(st')
  {
    assert forall r :: r in st.recs ==> (Current(st', r) <==> Current(st, r));
  }

  lemma DeliverTold(st: State, r: SubRef, event: StreamEvent, q: SubRef)
    requires Sound(st) && r in st.recs && q in st.recs && Peopled(st, q)
    ensures Told(st, Deliver(st, r, event), q, For(q, r, Telling([event])))
  {
    hide Sound, Deliver;
    DeliverHeard(st, r, event, q);
  }

  lemma TellMore(x: State, y: State, z: State, q: SubRef, r: SubRef, a: seq<StreamEvent>, b: Script)
    requires Sound(x) && Told(x, y, q, For(q, r, Telling(a))) && Told(y, z, q, For(q, r, b))
    ensures Told(x, z, q, For(q, r, Script(a + b.events, b.end)))
  {
    hide Sound, Heard, Peopled;
    if q == r { HeardTrans(x, y, z, q, a, b); } else { QuietThen(x, y, z, q, Nothing); }
  }

  lemma ToldThenQuiet(x: State, y: State, z: State, q: SubRef, script: Script)
    requires Sound(x) && Told(x, y, q, script) && Told(y, z, q, Nothing)
    ensures Told(x, z, q, script)
  {
    hide Sound, Heard, Peopled;
    ThenQuiet(x, y, z, q, script);
  }

  lemma QuietThenTold(x: State, y: State, z: State, q: SubRef, script: Script)
    requires Sound(x) && Told(x, y, q, Nothing) && Told(y, z, q, script)
    ensures Told(x, z, q, script)
  {
    hide Sound, Heard, Peopled;
    QuietThen(x, y, z, q, script);
  }

  /** A record that keeps its account and its consumers. */
  predicate SameSeat(st: State, r: SubRef, s: Sub) {
    && r in st.recs && s.account == st.recs[r].account && s.consumers == st.recs[r].consumers
    && (s.sub == st.recs[r].sub || s.sub == 0 || Current(st, r))
  }

  lemma EditTold(st: State, r: SubRef, s: Sub, q: SubRef)
    requires Sound(st) && SameSeat(st, r, s) && q in st.recs && Peopled(st, q)
    ensures Told(st, WithRec(st, r, s), q, Nothing)
  {
    QuietTold(st, WithRec(st, r, s), q);
  }

  lemma EditDeliverTold(st: State, r: SubRef, s: Sub, event: StreamEvent, q: SubRef)
    requires Sound(st) && SameSeat(st, r, s) && q in st.recs && Peopled(st, q)
    ensures Told(st, Deliver(WithRec(st, r, s), r, event), q, For(q, r, Telling([event])))
  {
    var st1 := WithRec(st, r, s);
    EditTold(st, r, s, q);
    hide Sound, Heard, Peopled, SameSeat;
    DeliverTold(st1, r, event, q);
    QuietThenTold(st, st1, Deliver(st1, r, event), q, For(q, r, Telling([event])));
  }

  // ---------- Ending ----------

  lemma FinishReaches(st: State, r: SubRef, err: Failure, q: SubRef)
    requires Sound(st) && r in st.recs && q in st.recs
    ensures Reached(st, FinishConsumers(st, r, Some(err)), q, For(q, r, Script([], Some(err))))
  {
    forall c | c in st.recs[q].consumers ensures c in st.consumers && st.consumers[c].owner == q {}
    forall k: Consumer ensures OfferedEach(st.maxQueue, k, []) == k {}
  }

  lemma EndTold(st: State, r: SubRef, err: Failure, q: SubRef)
    requires Sound(st) && r in st.recs && q in st.recs && Peopled(st, q)
    ensures Told(st, Teardown(FinishConsumers(st, r, Some(err)), r), q, For(q, r, Script([], Some(err))))
  {
    var st1 := FinishConsumers(st, r, Some(err));
    FinishReaches(st, r, err, q);
    FinishStaysOwned(st, r, Some(err));
    TeardownOwned(st1, r);
    TeardownEmpty(st1, r, q);
    FinishFrame(st, r, err, q);
    hide Sound, Reached, Teardown, FinishConsumers, Heard;
    ReachedHeard(st, st1, Teardown(st1, r), q, For(q, r, Script([], Some(err))));
    HeardPeopled(st, Teardown(st1, r), q, For(q, r, Script([], Some(err))));
  }

  lemma HeardPeopled(st: State, st': State, q: SubRef, script: Script)
    requires Heard(st, st', q, script)
    ensures Peopled(st', q)
  {
  }

  lemma FinishFrame(st: State, r: SubRef, err: Failure, q: SubRef)
    requires r in st.recs && q in st.recs
    ensures var st' := FinishConsumers(st, r, Some(err));
      && (Current(st', q) <==> Current(st, q)) && st'.recs[r].consumers == {}
      && (q != r ==> st'.recs[q].consumers == st.recs[q].consumers)
  {
  }

  /** What a subscription that ends is told: why, and that it is disconnected unless it knows. */
  function Ending(s: Sub, failure: Failure): Script {
    Script([StreamError(failure)] + Maybe(s.state != SubDisconnected, Disconnected), Some(failure))
  }

  lemma DeliverKeepsState(st: State, r: SubRef, event: StreamEvent, q: SubRef)
    requires r in st.recs && q in st.recs
    ensures Deliver(st, r, event).recs[q].state == st.recs[q].state
    ensures Deliver(st, r, event).recs[q].account == st.recs[q].account
  {
    TeardownKeepsState(OfferOnly(st, r, st.recs[r].consumers, event), r, q);
  }

  lemma TeardownKeepsState(st: State, r: SubRef, q: SubRef)
    requires r in st.recs && q in st.recs
    ensures Teardown(st, r).recs[q].state == st.recs[q].state
    ensures Teardown(st, r).recs[q].account == st.recs[q].account
  {
  }

  lemma FarewellTold(st: State, r: SubRef, failure: Failure, q: SubRef)
    requires Sound(st) && r in st.recs && q in st.recs && Peopled(st, q)
    ensures Told(st, Farewell(st, r, failure), q, For(q, r, Telling(Ending(st.recs[r], failure).events)))
  {
    var st1 := Report(st, r, failure);
    DeliverTold(st, r, StreamError(failure), q);
    DeliverKeepsState(st, r, StreamError(failure), r);
    hide Sound, Heard, Deliver;
    if st.recs[r].state != SubDisconnected {
      EditDeliverTold(st1, r, st1.recs[r].(state := SubDisconnected), Disconnected, q);
      TellMore(st, st1, Farewell(st, r, failure), q, r, [StreamError(failure)], Telling([Disconnected]));
    } else {
      assert [StreamError(failure)] + [] == [StreamError(failure)];
    }
  }

  lemma TerminateTold(st: State, r: SubRef, failure: Failure, q: SubRef)
    requires Sound(st) && Current(st, r) && q in st.recs && Peopled(st, q)
    ensures Told(st, Terminate(st, r, failure), q, For(q, r, Ending(st.recs[r], failure)))
  {
    hide Sound, Heard, Farewell, FinishConsumers, Teardown;
    FarewellTold(st, r, failure, q);
    var st2 := Farewell(st, r, failure);
    EndTold(st2, r, failure, q);
    var told := Ending(st.recs[r], failure).events;
    TellMore(st, st2, Terminate(st, r, failure), q, r, told, Script([], Some(failure)));
    assert told + [] == told;
  }
}
