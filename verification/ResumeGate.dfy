/**
 Resuming subscriptions the server ended (realtime/resubscribe.go): any number
 of subscriptions share one list of sub-accounts read at a paced rate, one
 removed set, and one queue of attempt slots.

 `step` counts steps, so that "began after" is a comparison; `now` is the
 clock, which does not go back. Both are read by every section.
 */
module ResumeGate {
  import opened Basics

  type AccountId = int
  type SubscriptionId = nat
  type ReadId = nat
  type Time = int

  datatype Timing = Timing(maxAttempts: int, stableAfter: Time, attemptSpacing: Time, readInterval: Time)

  datatype ReadResult = Listed(ids: set<AccountId>) | Refused | Failed

  /** A shared list request: waiting for its turn, fetching since a step, answered. */
  datatype AccessRead =
    | Waiting
    | Pacing(until: Time)
    | Fetching(began: nat)
    | Answered(began: nat, result: ReadResult)

  datatype End = AccessRemoved | RetriesExhausted | ListRefused | NotListed

  /** Where a subscription's run loop is. */
  datatype Pc =
    | Live
    | Asking
    | BackingOff
    | Checking
    | Joining
    | Reading(read: ReadId, joined: nat)
    | Judging(read: ReadId, joined: nat)
    | Reserving(read: ReadId, joined: nat)
    | InSlot(read: ReadId, joined: nat, slot: Time)
    | Resumed(read: ReadId, joined: nat)
    | Ended(end: End)
    | Canceled

  /** The budget of one subscription. */
  datatype Attempt = Attempt(attempts: int, ready: bool, readyAt: Time)

  datatype Subscription = Subscription(account: AccountId, attempt: Option<Attempt>, pc: Pc)

  datatype State = State(
    timing: Timing,
    removed: set<AccountId>,
    next: Option<ReadId>,
    lastRead: Option<Time>,
    nextAttemptAt: Option<Time>,
    fetches: map<ReadId, AccessRead>,
    subscriptions: map<SubscriptionId, Subscription>,
    now: Time,
    step: nat,
    // History: when fetches began, and the attempt slots given out.
    began: seq<Time>,
    slots: seq<Time>)

  datatype Event =
    | TickEvent(elapsed: nat)
    | UpdateEvent(account: AccountId, removed: bool)
    | OpenEvent(s: SubscriptionId, account: AccountId)
    | ServerEndedEvent(s: SubscriptionId)
    | ReadyEvent(s: SubscriptionId)
    | FailedEvent(s: SubscriptionId)
    | CancelEvent(s: SubscriptionId)
    | LoopEvent(s: SubscriptionId)
    | BackoffOverEvent(s: SubscriptionId)
    | CheckEvent(s: SubscriptionId)
    | JoinEvent(s: SubscriptionId, newRead: ReadId)
    | ReadOverEvent(s: SubscriptionId)
    | JudgeEvent(s: SubscriptionId)
    | ReserveEvent(s: SubscriptionId, clock: Time)
    | SlotOverEvent(s: SubscriptionId)
    | PaceEvent(r: ReadId)
    | FetchEvent(r: ReadId)
    | AnswerEvent(r: ReadId, result: ReadResult)

  function Initial(timing: Timing): State {
    State(timing, {}, None, None, None, map[], map[], 0, 0, [], [])
  }

  // ---------- Sections ----------

  function Goto(st: State, s: SubscriptionId, pc: Pc): State
    requires s in st.subscriptions
  {
    st.(subscriptions := st.subscriptions[s := st.subscriptions[s].(pc := pc)])
  }

  /** A new budget when there is none or the subscription stayed up long enough. */
  function AttemptAfter(timing: Timing, current: Option<Attempt>, now: Time): Attempt {
    if current.None? || (current.value.ready && now - current.value.readyAt >= timing.stableAfter)
    then Attempt(0, false, 0)
    else current.value.(ready := false)
  }

  function Loop(st: State, s: SubscriptionId): State
    requires s in st.subscriptions && st.subscriptions[s].attempt.Some?
  {
    var sub := st.subscriptions[s];
    var a := sub.attempt.value;
    if sub.account in st.removed then Goto(st, s, Ended(AccessRemoved))
    else if a.attempts >= st.timing.maxAttempts then Goto(st, s, Ended(RetriesExhausted))
    else st.(subscriptions := st.subscriptions[s := sub.(attempt := Some(a.(attempts := a.attempts + 1)),
      pc := BackingOff)])
  }

  /** Joins the read that has not begun, starting one when there is none. */
  function Join(st: State, s: SubscriptionId, newRead: ReadId): State
    requires s in st.subscriptions
  {
    if st.next.Some? then Goto(st, s, Reading(st.next.value, st.step))
    else Goto(st, s, Reading(newRead, st.step)).(next := Some(newRead), fetches := st.fetches[newRead := Waiting])
  }

  function Pace(st: State, r: ReadId): State {
    st.(fetches := st.fetches[r := Pacing(if st.lastRead.Some? then st.lastRead.value + st.timing.readInterval
      else st.now)])
  }

  /** Callers from here on need a read that starts after them. */
  function Fetch(st: State, r: ReadId): State {
    st.(fetches := st.fetches[r := Fetching(st.step)], next := None, lastRead := Some(st.now),
      began := st.began + [st.now])
  }

  function ReadOver(st: State, s: SubscriptionId, read: ReadId, joined: nat): State
    requires s in st.subscriptions && read in st.fetches && st.fetches[read].Answered?
  {
    match st.fetches[read].result
    case Refused => Goto(st, s, Ended(ListRefused))
    case Failed => Goto(st, s, Asking)
    case Listed(_) => Goto(st, s, Judging(read, joined))
  }

  /** A removal that arrived during the read is newer than its answer. */
  function Judge(st: State, s: SubscriptionId, read: ReadId, joined: nat): State
    requires s in st.subscriptions && read in st.fetches && st.fetches[read].Answered?
      && st.fetches[read].result.Listed?
  {
    if st.subscriptions[s].account in st.removed then Goto(st, s, Ended(AccessRemoved))
    else if st.subscriptions[s].account !in st.fetches[read].result.ids then Goto(st, s, Ended(NotListed))
    else Goto(st, s, Reserving(read, joined))
  }

  function SlotFor(nextAttemptAt: Option<Time>, now: Time): Time {
    if nextAttemptAt.Some? && nextAttemptAt.value > now then nextAttemptAt.value else now
  }

  /** `clock` was read before the mutex was acquired. */
  function Reserve(st: State, s: SubscriptionId, clock: Time, read: ReadId, joined: nat): State
    requires s in st.subscriptions
  {
    var slot := SlotFor(st.nextAttemptAt, clock);
    Goto(st, s, InSlot(read, joined, slot)).(nextAttemptAt := Some(slot + st.timing.attemptSpacing),
      slots := st.slots + [slot])
  }

  function SlotOver(st: State, s: SubscriptionId, read: ReadId, joined: nat): State
    requires s in st.subscriptions
  {
    if st.subscriptions[s].account in st.removed then Goto(st, s, Ended(AccessRemoved))
      else Goto(st, s, Resumed(read, joined))
  }

  // ---------- Steps ----------

  predicate Sleeping(pc: Pc) {
    pc.BackingOff? || pc.Reading? || pc.InSlot?
  }

  predicate Enabled(st: State, e: Event) {
    match e
    case TickEvent(_) => true
    case UpdateEvent(_, _) => true
    case OpenEvent(s, _) => s !in st.subscriptions
    case PaceEvent(r) => r in st.fetches && st.fetches[r].Waiting?
    case FetchEvent(r) => r in st.fetches && st.fetches[r].Pacing? && st.now >= st.fetches[r].until
    case AnswerEvent(r, _) => r in st.fetches && st.fetches[r].Fetching?
    case ServerEndedEvent(s) => s in st.subscriptions && Subscribing(st.subscriptions[s].pc)
    case ReadyEvent(s) => s in st.subscriptions && Subscribing(st.subscriptions[s].pc)
    case FailedEvent(s) =>
      && s in st.subscriptions && st.subscriptions[s].pc.Resumed?
      && st.subscriptions[s].attempt.Some? && !st.subscriptions[s].attempt.value.ready
    case CancelEvent(s) => s in st.subscriptions && Sleeping(st.subscriptions[s].pc)
    case LoopEvent(s) => s in st.subscriptions && st.subscriptions[s].pc.Asking? && st.subscriptions[s].attempt.Some?
    case BackoffOverEvent(s) => s in st.subscriptions && st.subscriptions[s].pc.BackingOff?
    case CheckEvent(s) => s in st.subscriptions && st.subscriptions[s].pc.Checking?
    case JoinEvent(s, newRead) => s in st.subscriptions && st.subscriptions[s].pc.Joining? && newRead !in st.fetches
    case ReadOverEvent(s) =>
      s in st.subscriptions && st.subscriptions[s].pc.Reading? && IsAnswered(st, st.subscriptions[s].pc.read)
    case JudgeEvent(s) =>
      && s in st.subscriptions && st.subscriptions[s].pc.Judging? && IsAnswered(st, st.subscriptions[s].pc.read)
      && st.fetches[st.subscriptions[s].pc.read].result.Listed?
    case ReserveEvent(s, clock) => s in st.subscriptions && st.subscriptions[s].pc.Reserving? && clock <= st.now
    case SlotOverEvent(s) =>
      s in st.subscriptions && st.subscriptions[s].pc.InSlot? && st.now >= st.subscriptions[s].pc.slot
  }

  /** The connection is up, or being set up. */
  predicate Subscribing(pc: Pc) {
    pc.Live? || pc.Resumed?
  }

  predicate IsAnswered(st: State, r: ReadId) {
    r in st.fetches && st.fetches[r].Answered?
  }

  function Act(st: State, e: Event): State
    requires Enabled(st, e)
  {
    match e
    case TickEvent(elapsed) => st.(now := st.now + elapsed)
    case UpdateEvent(account, removed) =>
      st.(removed := if removed then st.removed + {account} else st.removed - {account})
    case OpenEvent(s, account) => st.(subscriptions := st.subscriptions[s := Subscription(account, None, Live)])
    case ServerEndedEvent(s) =>
      st.(subscriptions := st.subscriptions[s :=
        st.subscriptions[s].(attempt := Some(AttemptAfter(st.timing, st.subscriptions[s].attempt, st.now)),
        pc := Asking)])
    case ReadyEvent(s) =>
      var a := st.subscriptions[s].attempt;
      st.(subscriptions := st.subscriptions[s := st.subscriptions[s].(
        attempt := if a.Some? then Some(a.value.(ready := true, readyAt := st.now)) else None, pc := Live)])
    case FailedEvent(s) => Goto(st, s, Asking)
    case CancelEvent(s) => Goto(st, s, Canceled)
    case LoopEvent(s) => Loop(st, s)
    case BackoffOverEvent(s) => Goto(st, s, Checking)
    case CheckEvent(s) =>
      Goto(st, s, if st.subscriptions[s].account in st.removed then Ended(AccessRemoved) else Joining)
    case JoinEvent(s, newRead) => Join(st, s, newRead)
    case ReadOverEvent(s) => ReadOver(st, s, st.subscriptions[s].pc.read, st.subscriptions[s].pc.joined)
    case JudgeEvent(s) => Judge(st, s, st.subscriptions[s].pc.read, st.subscriptions[s].pc.joined)
    case ReserveEvent(s, clock) => Reserve(st, s, clock, st.subscriptions[s].pc.read, st.subscriptions[s].pc.joined)
    case SlotOverEvent(s) => SlotOver(st, s, st.subscriptions[s].pc.read, st.subscriptions[s].pc.joined)
    case PaceEvent(r) => Pace(st, r)
    case FetchEvent(r) => Fetch(st, r)
    case AnswerEvent(r, result) => st.(fetches := st.fetches[r := Answered(st.fetches[r].began, result)])
  }

  function Step(st: State, e: Event): State
    requires Enabled(st, e)
  {
    Act(st, e).(step := st.step + 1)
  }

  // ---------- Invariant ----------

  predicate NotBegun(r: AccessRead) {
    r.Waiting? || r.Pacing?
  }

  /** Exactly the read that has not begun can be joined; a paced one begins an interval after the last. */
  ghost predicate ReadsOk(fetches: map<ReadId, AccessRead>, next: Option<ReadId>, lastRead: Option<Time>,
      interval: Time, step: nat) {
    && (next.Some? ==> next.value in fetches && NotBegun(fetches[next.value]))
    && (forall r :: r in fetches && NotBegun(fetches[r]) ==> next == Some(r))
    && (forall r :: r in fetches && fetches[r].Pacing? && lastRead.Some? ==>
      fetches[r].until >= lastRead.value + interval)
    && (forall r :: r in fetches && (fetches[r].Fetching? || fetches[r].Answered?) ==> fetches[r].began < step)
  }

  /** The read a caller joined has not begun, or began after the caller joined it. */
  predicate JoinedInTime(fetches: map<ReadId, AccessRead>, read: ReadId, joined: nat, step: nat) {
    && read in fetches && joined < step
    && (fetches[read].Fetching? || fetches[read].Answered? ==> joined < fetches[read].began)
  }

  /** The read `read` listed `account`, and began after the caller joined it. */
  predicate Granted(fetches: map<ReadId, AccessRead>, read: ReadId, joined: nat, account: AccountId) {
    && read in fetches && fetches[read].Answered? && joined < fetches[read].began
    && fetches[read].result.Listed? && account in fetches[read].result.ids
  }

  predicate SubscriptionOk(sub: Subscription, fetches: map<ReadId, AccessRead>, step: nat, maxAttempts: int) {
    && (sub.attempt.Some? ==> 0 <= sub.attempt.value.attempts <= maxAttempts)
    && match sub.pc
       case Reading(read, joined) => JoinedInTime(fetches, read, joined, step)
       case Judging(read, joined) =>
         JoinedInTime(fetches, read, joined, step) && fetches[read].Answered? && fetches[read].result.Listed?
       case Reserving(read, joined) => Granted(fetches, read, joined, sub.account)
       case InSlot(read, joined, _) => Granted(fetches, read, joined, sub.account)
       case Resumed(read, joined) => Granted(fetches, read, joined, sub.account)
       case _ => true
  }

  /** Times at least `gap` apart, the last of them `last`. */
  ghost predicate Spaced(times: seq<Time>, gap: Time) {
    forall i, j :: 0 <= i < j < |times| ==> times[i] + gap <= times[j]
  }

  ghost predicate Inv(st: State) {
    && st.timing.maxAttempts >= 0 && st.timing.attemptSpacing >= 0 && st.timing.readInterval >= 0
    && ReadsOk(st.fetches, st.next, st.lastRead, st.timing.readInterval, st.step)
    && (forall s :: s in st.subscriptions ==>
      SubscriptionOk(st.subscriptions[s], st.fetches, st.step, st.timing.maxAttempts))
    && Spaced(st.began, st.timing.readInterval)
    && (st.lastRead == if st.began == [] then None else Some(Last(st.began)))
    && Spaced(st.slots, st.timing.attemptSpacing)
    && (st.nextAttemptAt == if st.slots == [] then None else Some(Last(st.slots) + st.timing.attemptSpacing))
  }

  lemma SpacedMore(times: seq<Time>, gap: Time, t: Time)
    requires Spaced(times, gap) && gap >= 0 && (times != [] ==> Last(times) + gap <= t)
    ensures Spaced(times + [t], gap)
  {
    forall i, j | 0 <= i < j < |times + [t]| ensures (times + [t])[i] + gap <= (times + [t])[j] {
      if j == |times| && i < |times| - 1 { assert times[i] + gap <= Last(times); }
    }
  }

  /** A subscription that does not move stays sound while reads advance. */
  lemma ReadAdvances(sub: Subscription, fetches: map<ReadId, AccessRead>, fetches': map<ReadId, AccessRead>,
      step: nat, maxAttempts: int)
    requires SubscriptionOk(sub, fetches, step, maxAttempts)
    requires forall r :: r in fetches ==>
      r in fetches' && (fetches'[r] == fetches[r] || Advances(fetches[r], fetches'[r], step))
    ensures SubscriptionOk(sub, fetches', step + 1, maxAttempts)
  {
  }

  predicate Advances(from: AccessRead, to: AccessRead, step: nat) {
    match to
    case Waiting => false
    case Pacing(_) => from.Waiting?
    case Fetching(began) => from.Pacing? && began == step
    case Answered(began, _) => from.Fetching? && began == from.began
  }

  lemma OthersOk(st: State, st': State, s: SubscriptionId)
    requires Inv(st) && st'.fetches == st.fetches && st'.timing == st.timing && st'.step == st.step + 1
    requires st'.subscriptions.Keys <= st.subscriptions.Keys + {s}
    requires forall q :: q in st.subscriptions && q != s ==>
      q in st'.subscriptions && st'.subscriptions[q] == st.subscriptions[q]
    requires s in st'.subscriptions ==>
      SubscriptionOk(st'.subscriptions[s], st.fetches, st.step + 1, st.timing.maxAttempts)
    ensures forall q :: q in st'.subscriptions ==>
      SubscriptionOk(st'.subscriptions[q], st'.fetches, st'.step, st'.timing.maxAttempts)
  {
    forall q | q in st'.subscriptions && q != s
      ensures SubscriptionOk(st'.subscriptions[q], st'.fetches, st'.step, st'.timing.maxAttempts) {
      ReadAdvances(st.subscriptions[q], st.fetches, st.fetches, st.step, st.timing.maxAttempts);
    }
  }

  lemma ReadStepKeeps(st: State, e: Event)
    requires Inv(st) && Enabled(st, e) && (e.PaceEvent? || e.FetchEvent? || e.AnswerEvent?)
    ensures Inv(Step(st, e))
  {
    var st' := Step(st, e);
    forall q | q in st.subscriptions
      ensures SubscriptionOk(st'.subscriptions[q], st'.fetches, st'.step, st'.timing.maxAttempts) {
      ReadAdvances(st.subscriptions[q], st.fetches, st'.fetches, st.step, st.timing.maxAttempts);
    }
    if e.FetchEvent? { SpacedMore(st.began, st.timing.readInterval, st.now); }
  }

  lemma JoinKeeps(st: State, s: SubscriptionId, newRead: ReadId)
    requires Inv(st) && Enabled(st, JoinEvent(s, newRead))
    ensures Inv(Step(st, JoinEvent(s, newRead)))
  {
    var st' := Step(st, JoinEvent(s, newRead));
    forall q | q in st'.subscriptions && q != s
      ensures SubscriptionOk(st'.subscriptions[q], st'.fetches, st'.step, st'.timing.maxAttempts) {
      ReadAdvances(st.subscriptions[q], st.fetches, st'.fetches, st.step, st.timing.maxAttempts);
    }
  }

  /** The subscription that moves stays sound. */
  lemma MovedOk(st: State, e: Event)
    requires Inv(st) && Enabled(st, e)
    requires !(e.PaceEvent? || e.FetchEvent? || e.AnswerEvent? || e.JoinEvent? || e.TickEvent? || e.UpdateEvent?)
    ensures e.s in Step(st, e).subscriptions
    ensures SubscriptionOk(Step(st, e).subscriptions[e.s], st.fetches, st.step + 1, st.timing.maxAttempts)
  {
    hide ReadsOk, Spaced;
  }

  lemma SubscriptionStepKeeps(st: State, e: Event)
    requires Inv(st) && Enabled(st, e)
    requires !(e.PaceEvent? || e.FetchEvent? || e.AnswerEvent? || e.JoinEvent? || e.TickEvent? || e.UpdateEvent?)
    ensures Inv(Step(st, e))
  {
    hide SubscriptionOk, Granted, JoinedInTime, AttemptAfter, Spaced;
    MovedOk(st, e);
    OthersOk(st, Step(st, e), e.s);
    if e.ReserveEvent? { SpacedMore(st.slots, st.timing.attemptSpacing, SlotFor(st.nextAttemptAt, e.clock)); }
  }

  lemma StepKeeps(st: State, e: Event)
    requires Inv(st) && Enabled(st, e)
    ensures Inv(Step(st, e))
  {
    match e {
      case PaceEvent(_) => ReadStepKeeps(st, e);
      case FetchEvent(_) => ReadStepKeeps(st, e);
      case AnswerEvent(_, _) => ReadStepKeeps(st, e);
      case JoinEvent(s, newRead) => JoinKeeps(st, s, newRead);
      case TickEvent(_) => QuietKeeps(st, Step(st, e));
      case UpdateEvent(_, _) => QuietKeeps(st, Step(st, e));
      case _ => SubscriptionStepKeeps(st, e);
    }
  }

  lemma QuietKeeps(st: State, st': State)
    requires Inv(st) && st' == st.(now := st'.now, removed := st'.removed, step := st.step + 1)
    ensures Inv(st')
  {
    forall q | q in st.subscriptions
      ensures SubscriptionOk(st'.subscriptions[q], st'.fetches, st'.step, st'.timing.maxAttempts) {
      ReadAdvances(st.subscriptions[q], st.fetches, st.fetches, st.step, st.timing.maxAttempts);
    }
  }

  // ---------- Runs ----------

  ghost predicate Run(states: seq<State>, events: seq<Event>, timing: Timing) {
    && timing.maxAttempts >= 0 && timing.attemptSpacing >= 0 && timing.readInterval >= 0
    && |states| == |events| + 1 && states[0] == Initial(timing)
    && (forall i :: 0 <= i < |events| ==> Moves(states, events, i))
  }

  ghost predicate Moves(states: seq<State>, events: seq<Event>, i: nat)
    requires |states| == |events| + 1 && i < |events|
  {
    Enabled(states[i], events[i]) && states[i + 1] == Step(states[i], events[i])
  }

  lemma {:induction false} RunKeeps(states: seq<State>, events: seq<Event>, timing: Timing, n: nat)
    requires Run(states, events, timing) && n < |states|
    ensures Inv(states[n]) && states[n].timing == timing
    decreases n
  {
    if n > 0 {
      RunKeeps(states, events, timing, n - 1);
      assert Moves(states, events, n - 1);
      StepKeeps(states[n - 1], events[n - 1]);
    }
  }

  /**
   A subscription resumes only on a read that began after it joined the read
   and listed its sub-account, with no removal standing at that moment, and
   not before its slot.
   */
  lemma ResumesOnlyWhenListed(states: seq<State>, events: seq<Event>, timing: Timing, n: nat, s: SubscriptionId)
    requires Run(states, events, timing) && n < |events|
    requires s in states[n + 1].subscriptions && states[n + 1].subscriptions[s].pc.Resumed?
    requires s in states[n].subscriptions && !states[n].subscriptions[s].pc.Resumed?
    ensures var sub := states[n + 1].subscriptions[s];
      && Granted(states[n + 1].fetches, sub.pc.read, sub.pc.joined, sub.account)
      && sub.account !in states[n + 1].removed
      && events[n] == SlotOverEvent(s) && states[n].subscriptions[s].pc.InSlot?
        && states[n].now >= states[n].subscriptions[s].pc.slot
  {
    RunKeeps(states, events, timing, n + 1);
    assert Moves(states, events, n);
  }

  /** Step `k` begins an attempt of `s`: it passes the budget check and backs off. */
  ghost predicate Attempted(states: seq<State>, events: seq<Event>, s: SubscriptionId, k: nat)
    requires |states| == |events| + 1 && k < |events|
  {
    events[k] == LoopEvent(s) && s in states[k + 1].subscriptions && states[k + 1].subscriptions[s].pc.BackingOff?
  }

  /** The attempts of `s` among the steps from `m` to `n`. */
  ghost function Attempts(states: seq<State>, events: seq<Event>, s: SubscriptionId, m: nat, n: nat): nat
    requires |states| == |events| + 1 && m <= n <= |events|
  {
    if m == n then 0 else Attempts(states, events, s, m, n - 1) + if Attempted(states, events, s, n - 1) then 1 else 0
  }

  /** Step `k` gives `s` a new budget: the server ends it after it stayed up long enough. */
  ghost predicate Renewed(states: seq<State>, events: seq<Event>, timing: Timing, s: SubscriptionId, k: nat)
    requires |states| == |events| + 1 && k < |events|
  {
    && events[k] == ServerEndedEvent(s) && s in states[k].subscriptions && states[k].subscriptions[s].attempt.Some?
    && states[k].subscriptions[s].attempt.value.ready
    && states[k].now - states[k].subscriptions[s].attempt.value.readyAt >= timing.stableAfter
  }

  /** As long as no stable period renews the budget, a subscription attempts to resume at most `maxAttempts` times. */
  lemma AttemptsBounded(states: seq<State>, events: seq<Event>, timing: Timing, m: nat, n: nat, s: SubscriptionId)
    requires Run(states, events, timing) && m <= n <= |events|
    requires forall k :: m <= k < n ==> !Renewed(states, events, timing, s, k)
    ensures Attempts(states, events, s, m, n) <= timing.maxAttempts
  {
    AttemptsCounted(states, events, timing, m, n, s);
    RunKeeps(states, events, timing, n);
  }

  /** What the budget has counted, it has counted since the last renewal at least. */
  lemma {:induction false} AttemptsCounted(states: seq<State>, events: seq<Event>, timing: Timing, m: nat, n: nat,
      s: SubscriptionId)
    requires Run(states, events, timing) && m <= n <= |events|
    requires forall k :: m <= k < n ==> !Renewed(states, events, timing, s, k)
    ensures Attempts(states, events, s, m, n) <= Counted(states[n], s)
    decreases n
  {
    RunKeeps(states, events, timing, n);
    if m < n {
      AttemptsCounted(states, events, timing, m, n - 1, s);
      assert Moves(states, events, n - 1);
      assert !Renewed(states, events, timing, s, n - 1);
      RunKeeps(states, events, timing, n - 1);
      StepCounted(states[n - 1], events[n - 1], s);
    }
  }

  function Counted(st: State, s: SubscriptionId): int {
    if s in st.subscriptions && st.subscriptions[s].attempt.Some? then st.subscriptions[s].attempt.value.attempts else 0
  }

  /** One step counts the attempt it begins, and forgets attempts only after a stable period. */
  lemma StepCounted(st: State, e: Event, s: SubscriptionId)
    requires Inv(st) && Enabled(st, e)
    requires e == ServerEndedEvent(s) && st.subscriptions[s].attempt.Some? ==>
      !(st.subscriptions[s].attempt.value.ready
        && st.now - st.subscriptions[s].attempt.value.readyAt >= st.timing.stableAfter)
    ensures var st' := Step(st, e);
      var begun := e == LoopEvent(s) && s in st'.subscriptions && st'.subscriptions[s].pc.BackingOff?;
      Counted(st', s) == Counted(st, s) + if begun then 1 else 0
  {
    hide Inv;
  }

  /** Attempts already made are forgotten only after the resumed subscription stayed up long enough. */
  lemma BudgetKept(states: seq<State>, events: seq<Event>, timing: Timing, n: nat, s: SubscriptionId)
    requires Run(states, events, timing) && n < |events|
    requires s in states[n].subscriptions && states[n].subscriptions[s].attempt.Some?
    ensures s in states[n + 1].subscriptions && states[n + 1].subscriptions[s].attempt.Some?
    ensures var a, b := states[n].subscriptions[s].attempt.value, states[n + 1].subscriptions[s].attempt.value;
      b.attempts < a.attempts ==> Renewed(states, events, timing, s, n)
  {
    RunKeeps(states, events, timing, n);
    assert Moves(states, events, n);
  }

  /**
   Across any number of callers: reads begin at least an interval apart, and attempt slots at least a spacing
   apart.
   */
  lemma PacedAcrossCallers(states: seq<State>, events: seq<Event>, timing: Timing, n: nat)
    requires Run(states, events, timing) && n < |states|
    ensures forall i, j :: 0 <= i < j < |states[n].began| ==>
      states[n].began[i] + timing.readInterval <= states[n].began[j]
    ensures forall i, j :: 0 <= i < j < |states[n].slots| ==>
      states[n].slots[i] + timing.attemptSpacing <= states[n].slots[j]
  {
    RunKeeps(states, events, timing, n);
  }
}
