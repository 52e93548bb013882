/**
 Renewing the tokens of one connection (realtime/renewal.go): timers that
 start renewals, requests waiting for their answer, and the wait group that
 `stop` relies on. A state and its steps first, what holds over every run of
 them, and then the renewer as the object it is.
 */
module TokenRenewer {
  import opened Basics

  datatype Kind = RenewConnection | RenewSubscription

  datatype Sent = Sent(id: int, kind: Kind)

  datatype State = State(
    nextID: int,
    pending: map<int, Kind>,
    timers: map<Kind, nat>,
    stopped: bool,
    timerSeq: nat,
    // The wait group.
    waiting: int,
    // The runtime's timers that have neither fired nor been stopped, and the renewals in flight.
    armed: set<nat>,
    running: set<nat>,
    // Requests sent, and ids of replies that answered one.
    sent: seq<Sent>,
    answered: seq<int>)

  const TWO_32 := 0x1_0000_0000

  function Initial(firstID: int): State {
    State(firstID % TWO_32, map[], map[], false, 0, 0, {}, {}, [], [])
  }

  // ---------- Sections ----------

  /** `timer.Stop`, and one less to wait for when it kept the timer from firing. */
  function Disarmed(st: State, t: nat): State {
    st.(armed := st.armed - {t}, waiting := if t in st.armed then st.waiting - 1 else st.waiting)
  }

  function ArmedFor(st: State, kind: Kind): State {
    st.(armed := st.armed + {st.timerSeq}, timers := st.timers[kind := st.timerSeq], timerSeq := st.timerSeq + 1,
        waiting := st.waiting + 1)
  }

  function Rearmed(st: State, kind: Kind): State {
    ArmedFor(if kind in st.timers then Disarmed(st, st.timers[kind]) else st, kind)
  }

  /** Arms the renewal of one kind, in place of the one armed before. */
  function Schedule(st: State, kind: Kind, expires: bool): State {
    if !expires || st.stopped then st else Rearmed(st, kind)
  }

  /** A timer fires: its renewal runs. */
  function Fire(st: State, t: nat): State {
    st.(armed := st.armed - {t}, running := st.running + {t})
  }

  /** The token was fetched: a request is sent, unless the connection is over or the fetch failed. */
  function Fetch(st: State, kind: Kind, canceled: bool, failed: bool): State {
    if canceled || failed || st.stopped then st
    else st.(nextID := (st.nextID + 1) % TWO_32, pending := st.pending[st.nextID := kind],
      sent := st.sent + [Sent(st.nextID, kind)])
  }

  /** A renewal ends. */
  function Finish(st: State, t: nat): State {
    st.(running := st.running - {t}, waiting := st.waiting - 1)
  }

  /** A reply; one that answers a renewal takes it out of the pending ones, and a success schedules the next. */
  function Reply(st: State, id: int, refused: bool, expires: bool): State {
    if id !in st.pending then st
    else
      var st1 := st.(pending := st.pending - {id}, answered := st.answered + [id]);
      if refused then st1 else Schedule(st1, st.pending[id], expires)
  }

  /** `stop` before it waits. */
  function Stop(st: State): State {
    st.(stopped := true, armed := {}, waiting := st.waiting - |st.armed|)
  }

  // ---------- Steps ----------

  datatype Event =
    | ScheduleEvent(kind: Kind, expires: bool)
    | FireEvent(t: nat)
    | FetchEvent(t: nat, kind: Kind, canceled: bool, failed: bool)
    | FinishEvent(t: nat)
    | ReplyEvent(id: int, refused: bool, expires: bool)
    | StopEvent

  predicate Enabled(st: State, e: Event) {
    match e
    case FireEvent(t) => t in st.armed
    case FetchEvent(t, _, _, _) => t in st.running
    case FinishEvent(t) => t in st.running
    case _ => true
  }

  function Step(st: State, e: Event): State {
    match e
    case ScheduleEvent(kind, expires) => Schedule(st, kind, expires)
    case FireEvent(t) => Fire(st, t)
    case FetchEvent(_, kind, canceled, failed) => Fetch(st, kind, canceled, failed)
    case FinishEvent(t) => Finish(st, t)
    case ReplyEvent(id, refused, expires) => Reply(st, id, refused, expires)
    case StopEvent => Stop(st)
  }

  // ---------- The invariant ----------

  /**
   The wait group counts the armed timers and the running renewals, no more;
   an armed timer is the one listed for its kind, so each kind has at most one.
   */
  ghost predicate Timed(st: State) {
    && st.waiting == |st.armed| + |st.running|
    && st.armed !! st.running
    && (forall t :: t in st.armed ==> t < st.timerSeq) && (forall t :: t in st.running ==> t < st.timerSeq)
    && (forall t :: t in st.armed ==> Listed(st.timers, t))
    && (forall k :: k in st.timers ==> st.timers[k] < st.timerSeq)
    && (st.stopped ==> st.armed == {})
  }

  ghost predicate Listed(timers: map<Kind, nat>, t: nat) {
    exists k :: k in timers && timers[k] == t
  }

  /** How many of the requests carry `id`, and how many replies answered it. */
  function Sends(sent: seq<Sent>, id: int): nat {
    if sent == [] then 0 else Sends(Init(sent), id) + if Last(sent).id == id then 1 else 0
  }

  function Answers(answered: seq<int>, id: int): nat {
    if answered == [] then 0 else Answers(Init(answered), id) + if Last(answered) == id then 1 else 0
  }

  /** Requests are numbered one after the other, modulo 32 bits; each is answered or pending at most once. */
  ghost predicate Numbered(st: State, firstID: int) {
    && st.nextID == (firstID + |st.sent|) % TWO_32
    && (forall i :: 0 <= i < |st.sent| ==> st.sent[i].id == (firstID + i) % TWO_32)
    && (forall id :: Owed(st, id))
  }

  predicate Owed(st: State, id: int) {
    Answers(st.answered, id) + (if id in st.pending then 1 else 0) <= Sends(st.sent, id)
  }

  lemma OneLess(s: set<nat>, t: nat)
    ensures |s| == |s - {t}| + if t in s then 1 else 0
  {
    if t in s {
      assert s == (s - {t}) + {t};
    } else {
      assert s == s - {t};
    }
  }

  lemma OneMore(s: set<nat>, t: nat)
    requires t !in s
    ensures |s + {t}| == |s| + 1
  {
    OneLess(s + {t}, t);
    assert (s + {t}) - {t} == s;
  }

  lemma DisarmedTimed(st: State, t: nat)
    requires Timed(st)
    ensures Timed(Disarmed(st, t))
  {
    OneLess(st.armed, t);
  }

  lemma ArmedTimed(st: State, kind: Kind)
    requires Timed(st) && !st.stopped && (kind in st.timers ==> st.timers[kind] !in st.armed)
    ensures Timed(ArmedFor(st, kind))
  {
    assert st.timerSeq !in st.armed && st.timerSeq !in st.running;
    OneMore(st.armed, st.timerSeq);
    var next := st.timers[kind := st.timerSeq];
    forall t | t in st.armed + {st.timerSeq} ensures Listed(next, t) {
      if t == st.timerSeq {
        assert kind in next && next[kind] == t;
      } else {
        var k :| k in st.timers && st.timers[k] == t;
        assert k != kind && next[k] == t;
      }
    }
  }

  lemma RearmedTimed(st: State, kind: Kind)
    requires Timed(st) && !st.stopped
    ensures Timed(Rearmed(st, kind))
  {
    hide Timed, ArmedFor;
    if kind in st.timers {
      DisarmedTimed(st, st.timers[kind]);
      ArmedTimed(Disarmed(st, st.timers[kind]), kind);
    } else {
      ArmedTimed(st, kind);
    }
  }

  lemma FireTimed(st: State, t: nat)
    requires Timed(st) && t in st.armed
    ensures Timed(Fire(st, t))
  {
    OneLess(st.armed, t);
    OneMore(st.running, t);
  }

  lemma FinishTimed(st: State, t: nat)
    requires Timed(st) && t in st.running
    ensures Timed(Finish(st, t))
  {
    OneLess(st.running, t);
  }

  lemma StopTimed(st: State)
    requires Timed(st)
    ensures Timed(Stop(st))
  {
  }

  lemma RequestsTimed(st: State, st': State)
    requires Timed(st)
    requires st' == st.(nextID := st'.nextID, pending := st'.pending, sent := st'.sent, answered := st'.answered)
    ensures Timed(st')
  {
  }

  lemma ReplyTimed(st: State, id: int, refused: bool, expires: bool)
    requires Timed(st)
    ensures Timed(Reply(st, id, refused, expires))
  {
    hide Timed, Rearmed;
    if id in st.pending {
      var st1 := st.(pending := st.pending - {id}, answered := st.answered + [id]);
      RequestsTimed(st, st1);
      if !st.stopped { RearmedTimed(st1, st.pending[id]); }
    }
  }

  lemma StepTimed(st: State, e: Event)
    requires Timed(st) && Enabled(st, e)
    ensures Timed(Step(st, e))
  {
    hide Timed, Rearmed, Reply, Fire, Finish, Stop;
    match e
    case ScheduleEvent(kind, _) =>
      if !st.stopped { RearmedTimed(st, kind); }
    case FireEvent(t) => FireTimed(st, t);
    case FinishEvent(t) => FinishTimed(st, t);
    case ReplyEvent(id, refused, expires) => ReplyTimed(st, id, refused, expires);
    case StopEvent => StopTimed(st);
    case FetchEvent(_, _, _, _) => RequestsTimed(st, Step(st, e));
  }

  lemma StepNumbered(st: State, e: Event, firstID: int)
    requires Numbered(st, firstID)
    ensures Numbered(Step(st, e), firstID)
  {
    hide Numbered;
    match e
    case FetchEvent(_, kind, canceled, failed) =>
      if !canceled && !failed && !st.stopped { SentNumbered(st, kind, firstID); }
    case ReplyEvent(id, refused, expires) =>
      if id in st.pending {
        var st1 := st.(pending := st.pending - {id}, answered := st.answered + [id]);
        AnsweredNumbered(st, id, firstID);
        SameNumbered(st1, Step(st, e), firstID);
      }
    case _ => SameNumbered(st, Step(st, e), firstID);
  }

  lemma SameNumbered(st: State, st': State, firstID: int)
    requires Numbered(st, firstID)
    requires st'.nextID == st.nextID && st'.pending == st.pending && st'.sent == st.sent && st'.answered == st.answered
    ensures Numbered(st', firstID)
  {
    forall id ensures Owed(st', id) { assert Owed(st, id); }
  }

  lemma SentNumbered(st: State, kind: Kind, firstID: int)
    requires Numbered(st, firstID) && !st.stopped
    ensures Numbered(Fetch(st, kind, false, false), firstID)
  {
    var st' := Fetch(st, kind, false, false);
    assert Init(st'.sent) == st.sent;
    NextNumber(firstID + |st.sent|);
    forall id ensures Owed(st', id) { assert Owed(st, id); }
  }

  lemma AnsweredNumbered(st: State, id: int, firstID: int)
    requires Numbered(st, firstID) && id in st.pending
    ensures Numbered(st.(pending := st.pending - {id}, answered := st.answered + [id]), firstID)
  {
    var st' := st.(pending := st.pending - {id}, answered := st.answered + [id]);
    assert Init(st'.answered) == st.answered;
    forall x ensures Owed(st', x) { assert Owed(st, x); }
  }

  lemma NextNumber(n: int)
    ensures (n % TWO_32 + 1) % TWO_32 == (n + 1) % TWO_32
  {
  }

  // ---------- Runs ----------

  ghost predicate Run(states: seq<State>, events: seq<Event>, firstID: int) {
    && |states| == |events| + 1 && states[0] == Initial(firstID)
    && (forall i :: 0 <= i < |events| ==> Moves(states, events, i))
  }

  ghost predicate Moves(states: seq<State>, events: seq<Event>, i: nat)
    requires |states| == |events| + 1 && i < |events|
  {
    Enabled(states[i], events[i]) && states[i + 1] == Step(states[i], events[i])
  }

  lemma {:induction false} RunKeeps(states: seq<State>, events: seq<Event>, firstID: int, n: nat)
    requires Run(states, events, firstID) && n < |states|
    ensures Timed(states[n]) && Numbered(states[n], firstID)
    decreases n
  {
    if n > 0 {
      RunKeeps(states, events, firstID, n - 1);
      assert Moves(states, events, n - 1);
      hide Timed, Numbered, Step, Enabled;
      StepTimed(states[n - 1], events[n - 1]);
      StepNumbered(states[n - 1], events[n - 1], firstID);
    }
  }

  /** Requests have ids of their own until 32 bits wrap around. */
  lemma {:induction false} SentOnce(st: State, firstID: int, id: int, n: nat)
    requires Numbered(st, firstID) && n <= |st.sent| <= TWO_32
    ensures Sends(st.sent[..n], id) <= 1
    ensures Sends(st.sent[..n], id) == 1 ==> exists i :: 0 <= i < n && st.sent[i].id == id
  {
    if n > 0 {
      assert Init(st.sent[..n]) == st.sent[..n - 1];
      SentOnce(st, firstID, id, n - 1);
      if st.sent[n - 1].id == id && Sends(st.sent[..n - 1], id) == 1 {
        var i :| 0 <= i < n - 1 && st.sent[i].id == id;
        DistinctNumbers(firstID + i, firstID + n - 1);
      }
    }
  }

  lemma DistinctNumbers(a: int, b: int)
    requires a < b < a + TWO_32
    ensures a % TWO_32 != b % TWO_32
  {
  }

  /**
   Over any run a reply answers an id no more often than it was sent, and once
   at most while fewer than 2^32 requests were sent.
   */
  lemma AnsweredOnce(states: seq<State>, events: seq<Event>, firstID: int, n: nat, id: int)
    requires Run(states, events, firstID) && n < |states|
    ensures Answers(states[n].answered, id) <= Sends(states[n].sent, id)
    ensures |states[n].sent| <= TWO_32 ==> Answers(states[n].answered, id) <= Sends(states[n].sent, id) <= 1
  {
    RunKeeps(states, events, firstID, n);
    assert Owed(states[n], id);
    if |states[n].sent| <= TWO_32 {
      SentOnce(states[n], firstID, id, |states[n].sent|);
      assert states[n].sent[..|states[n].sent|] == states[n].sent;
    }
  }

  /**
   Once stopped, nothing is sent and nothing armed any more; the renewals in
   flight can only end, and they are what the wait group waits for.
   */
  lemma {:induction false} NothingAfterStop(states: seq<State>, events: seq<Event>, firstID: int, i: nat, j: nat)
    requires Run(states, events, firstID) && i <= j < |states| && states[i].stopped
    ensures states[j].stopped && states[j].sent == states[i].sent && states[j].armed == {}
    ensures states[j].running <= states[i].running && states[j].waiting == |states[j].running|
    decreases j
  {
    RunKeeps(states, events, firstID, j);
    if i < j {
      NothingAfterStop(states, events, firstID, i, j - 1);
      assert Moves(states, events, j - 1);
    }
  }

  // ---------- What renews and what does not ----------

  /** The timer armed for a kind, if one is. */
  function ArmedTimer(st: State, kind: Kind): Option<nat> {
    if kind in st.timers && st.timers[kind] in st.armed then Some(st.timers[kind]) else None
  }

  /**
   One renewal of `kind` is armed with a timer of its own, in place of the one armed before; the other kind's
   is left.
   */
  ghost predicate Replaced(st: State, st': State, kind: Kind) {
    && ArmedTimer(st', kind) == Some(st.timerSeq) && st.timerSeq !in st.armed && st.timerSeq !in st.running
    && (forall k :: k != kind ==> ArmedTimer(st', k) == ArmedTimer(st, k))
    && (forall t :: t in st'.armed ==> t == st.timerSeq || t in st.armed)
    && (ArmedTimer(st, kind).Some? ==> ArmedTimer(st, kind).value !in st'.armed)
    && st'.running == st.running
  }

  ghost predicate SameTimers(st: State, st': State) {
    st'.armed == st.armed && st'.timers == st.timers && st'.running == st.running && st'.waiting == st.waiting
  }

  /** Different kinds have different timers. */
  ghost predicate OwnTimers(st: State) {
    forall a, b :: a in st.timers && b in st.timers && a != b ==> st.timers[a] != st.timers[b]
  }

  /** Every timer listed, armed or running was armed before the next one. */
  ghost predicate Elder(st: State) {
    && (forall k :: k in st.timers ==> st.timers[k] < st.timerSeq)
    && (forall t :: t in st.armed || t in st.running ==> t < st.timerSeq)
  }

  lemma TimedElder(st: State)
    requires Timed(st)
    ensures Elder(st)
  {
  }

  lemma RearmedParts(st: State, kind: Kind)
    ensures var st' := Rearmed(st, kind);
      && st'.timers == st.timers[kind := st.timerSeq] && st'.running == st.running
      && st'.armed == (if kind in st.timers then st.armed - {st.timers[kind]} else st.armed) + {st.timerSeq}
  {
  }

  lemma RearmedOwn(st: State, kind: Kind)
    requires Elder(st) && OwnTimers(st)
    ensures OwnTimers(Rearmed(st, kind))
  {
    RearmedParts(st, kind);
    hide Rearmed;
  }

  lemma StepOwn(st: State, e: Event)
    requires Timed(st) && OwnTimers(st) && Enabled(st, e)
    ensures OwnTimers(Step(st, e))
  {
    TimedElder(st);
    hide Timed, Elder, OwnTimers, Rearmed, Enabled;
    match e
    case ScheduleEvent(kind, _) => RearmedOwn(st, kind);
    case ReplyEvent(id, _, _) =>
      if id in st.pending {
        var st1 := st.(pending := st.pending - {id}, answered := st.answered + [id]);
        SameOwn(st, st1);
        RearmedOwn(st1, st.pending[id]);
      }
    case _ => SameOwn(st, Step(st, e));
  }

  lemma SameOwn(st: State, st': State)
    requires OwnTimers(st) && st'.timers == st.timers
    ensures OwnTimers(st')
    ensures st'.timerSeq == st.timerSeq && st'.armed == st.armed && st'.running == st.running && Elder(st) ==>
      Elder(st')
  {
  }

  lemma {:induction false} RunOwn(states: seq<State>, events: seq<Event>, firstID: int, n: nat)
    requires Run(states, events, firstID) && n < |states|
    ensures OwnTimers(states[n])
    decreases n
  {
    if n > 0 {
      RunOwn(states, events, firstID, n - 1);
      RunKeeps(states, events, firstID, n - 1);
      assert Moves(states, events, n - 1);
      hide Timed, Numbered, OwnTimers, Step, Enabled;
      StepOwn(states[n - 1], events[n - 1]);
    }
  }

  lemma RearmedReplaces(st: State, kind: Kind)
    requires Elder(st) && OwnTimers(st)
    ensures Replaced(st, Rearmed(st, kind), kind)
  {
    RearmedParts(st, kind);
    hide Rearmed;
  }

  /**
   A renewal is armed exactly by being told that a token expires while the connection lives: at the start, or by
   a success that answers a renewal, for the kind that it renewed. A refusal, a token that does not expire, and
   a reply to nothing leave the timers as they are.
   */
  lemma RenewsNext(states: seq<State>, events: seq<Event>, firstID: int, n: nat)
    requires Run(states, events, firstID) && n < |events|
    ensures var st, st' := states[n], states[n + 1];
      match events[n]
      case ScheduleEvent(kind, expires) =>
        if expires && !st.stopped then Replaced(st, st', kind) else SameTimers(st, st')
      case ReplyEvent(id, refused, expires) =>
        if id in st.pending && !refused && expires && !st.stopped then Replaced(st, st', st.pending[id])
        else SameTimers(st, st')
      case FetchEvent(_, _, _, _) => SameTimers(st, st')
      case _ => st'.armed <= st.armed
  {
    RunKeeps(states, events, firstID, n);
    RunOwn(states, events, firstID, n);
    assert Moves(states, events, n);
    StepRenews(states[n], events[n]);
  }

  lemma StepRenews(st: State, e: Event)
    requires Timed(st) && OwnTimers(st)
    ensures var st' := Step(st, e);
      match e
      case ScheduleEvent(kind, expires) =>
        if expires && !st.stopped then Replaced(st, st', kind) else SameTimers(st, st')
      case ReplyEvent(id, refused, expires) =>
        if id in st.pending && !refused && expires && !st.stopped then Replaced(st, st', st.pending[id])
        else SameTimers(st, st')
      case FetchEvent(_, _, _, _) => SameTimers(st, st')
      case _ => st'.armed <= st.armed
  {
    TimedElder(st);
    hide Timed, Elder, OwnTimers, Rearmed, Replaced, Reply;
    match e
    case ScheduleEvent(kind, _) => RearmedReplaces(st, kind);
    case ReplyEvent(id, refused, expires) => ReplyRenews(st, id, refused, expires);
    case _ =>
  }

  lemma ReplyRenews(st: State, id: int, refused: bool, expires: bool)
    requires Elder(st) && OwnTimers(st)
    ensures var st' := Reply(st, id, refused, expires);
      if id in st.pending && !refused && expires && !st.stopped then Replaced(st, st', st.pending[id])
      else SameTimers(st, st')
  {
    if id in st.pending {
      var st1 := st.(pending := st.pending - {id}, answered := st.answered + [id]);
      SameOwn(st, st1);
      RearmedReplaces(st1, st.pending[id]);
      SameReplaced(st, st1, Rearmed(st1, st.pending[id]), st.pending[id]);
      hide Elder, OwnTimers, Rearmed, Replaced;
    }
  }

  lemma SameReplaced(st: State, st1: State, st': State, kind: Kind)
    requires st1.armed == st.armed && st1.timers == st.timers && st1.running == st.running
      && st1.timerSeq == st.timerSeq
    requires Replaced(st1, st', kind)
    ensures Replaced(st, st', kind)
  {
  }

  /** A fetched token is sent, once, exactly unless it was not fetched or the connection is over. */
  lemma SendsOnce(states: seq<State>, events: seq<Event>, firstID: int, n: nat)
    requires Run(states, events, firstID) && n < |events|
    ensures var st, st' := states[n], states[n + 1];
      match events[n]
      case FetchEvent(_, kind, canceled, failed) =>
        if canceled || failed || st.stopped then st'.sent == st.sent && st'.pending == st.pending
        else
          && |st'.sent| == |st.sent| + 1 && st'.sent[..|st.sent|] == st.sent && Last(st'.sent).kind == kind
          && Last(st'.sent).id == (firstID + |st.sent|) % TWO_32
          && st'.pending == st.pending[Last(st'.sent).id := kind]
      case ReplyEvent(id, _, _) =>
        && st'.sent == st.sent && st'.pending == st.pending - {id}
        && st'.answered == st.answered + if id in st.pending then [id] else []
      case _ => st'.sent == st.sent && st'.pending == st.pending && st'.answered == st.answered
  {
    RunKeeps(states, events, firstID, n);
    assert Moves(states, events, n);
    hide Timed;
    assert forall m: map<int, Kind>, id :: id !in m ==> m - {id} == m;
  }

  // ---------- The renewer ----------

  class TokenRenewer {
    var nextID: int
    var pending: map<int, Kind>
    var timers: map<Kind, nat>
    var stopped: bool
    var timerSeq: nat
    var waiting: int
    var armed: set<nat>
    ghost var running: set<nat>
    ghost var sent: seq<Sent>
    ghost var answers: seq<int>

    ghost function Model(): State
      reads this
    {
      State(nextID, pending, timers, stopped, timerSeq, waiting, armed, running, sent, answers)
    }

    constructor (firstID: int)
      ensures Model() == Initial(firstID) && Timed(Model())
    {
      nextID, pending, timers, stopped, timerSeq, waiting := firstID % TWO_32, map[], map[], false, 0, 0;
      armed, running, sent, answers := {}, {}, [], [];
    }

    method Disarm(t: nat)
      modifies this`armed, this`waiting
      ensures Model() == Disarmed(old(Model()), t)
    {
      var was := t in armed;
      armed := armed - {t};
      if was {
        waiting := waiting - 1;
      }
    }

    method Schedule(kind: Kind, expires: bool)
      requires Timed(Model())
      modifies this`armed, this`timers, this`timerSeq, this`waiting
      ensures Model() == Step(old(Model()), ScheduleEvent(kind, expires)) && Timed(Model())
    {
      StepTimed(Model(), ScheduleEvent(kind, expires));
      hide Timed, Disarmed, ArmedFor;
      if !expires || stopped {
        return;
      }
      if kind in timers {
        Disarm(timers[kind]);
      }
      Arm(kind);
    }

    method Arm(kind: Kind)
      modifies this`armed, this`timers, this`timerSeq, this`waiting
      ensures Model() == ArmedFor(old(Model()), kind)
    {
      waiting := waiting + 1;
      armed, timers, timerSeq := armed + {timerSeq}, timers[kind := timerSeq], timerSeq + 1;
    }

    method Fired(t: nat)
      requires Timed(Model()) && t in armed
      modifies this`armed, this`running
      ensures Model() == Step(old(Model()), FireEvent(t)) && Timed(Model())
    {
      StepTimed(Model(), FireEvent(t));
      hide Timed;
      armed, running := armed - {t}, running + {t};
    }

    /** The second half of `renew`: the request to send, if any. */
    method TokenFetched(t: nat, kind: Kind, canceled: bool, failed: bool) returns (request: Option<Sent>)
      requires Timed(Model()) && t in running
      modifies this`nextID, this`pending, this`sent
      ensures Model() == Step(old(Model()), FetchEvent(t, kind, canceled, failed)) && Timed(Model())
      ensures sent == old(sent) + if request.Some? then [request.value] else []
    {
      StepTimed(Model(), FetchEvent(t, kind, canceled, failed));
      hide Timed;
      if canceled || failed || stopped {
        return None;
      }
      var id := nextID;
      nextID := (nextID + 1) % TWO_32;
      pending := pending[id := kind];
      sent := sent + [Sent(id, kind)];
      request := Some(Sent(id, kind));
    }

    method Done(t: nat)
      requires Timed(Model()) && t in running
      modifies this`running, this`waiting
      ensures Model() == Step(old(Model()), FinishEvent(t)) && Timed(Model())
    {
      StepTimed(Model(), FinishEvent(t));
      hide Timed;
      running, waiting := running - {t}, waiting - 1;
    }

    /** Whether the reply answers a renewal. */
    method HandleReply(id: int, refused: bool, expires: bool) returns (answered: bool)
      requires Timed(Model())
      modifies this`pending, this`answers, this`armed, this`timers, this`timerSeq, this`waiting
      ensures Model() == Step(old(Model()), ReplyEvent(id, refused, expires)) && Timed(Model())
      ensures answered == (id in old(pending))
    {
      StepTimed(Model(), ReplyEvent(id, refused, expires));
      if id !in pending {
        return false;
      }
      var kind := pending[id];
      pending, answers := pending - {id}, answers + [id];
      assert Timed(Model());
      hide Timed;
      if !refused {
        Schedule(kind, expires);
      }
      return true;
    }

    /** `stop` before it waits: no timer is left, so the wait group counts exactly the renewals in flight. */
    method Stop()
      requires Timed(Model())
      modifies this`armed, this`waiting, this`stopped
      ensures Model() == Step(old(Model()), StopEvent) && Timed(Model()) && waiting == |running|
    {
      StepTimed(Model(), StopEvent);
      var todo := timers.Keys;
      while todo != {}
        invariant todo <= timers.Keys && armed <= old(armed) && waiting == old(waiting) - |old(armed)| + |armed|
        invariant forall k :: k in timers && k !in todo ==> timers[k] !in armed
        decreases todo
      {
        var k :| k in todo;
        OneLess(armed, timers[k]);
        Disarm(timers[k]);
        todo := todo - {k};
      }
      forall t ensures t !in armed { assert t in old(armed) ==> Listed(timers, t); }
      assert armed == {};
      stopped := true;
    }
  }
}
