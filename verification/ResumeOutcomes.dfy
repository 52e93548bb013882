/**
 Why the resume gate ends a subscription and when it does not
 (realtime/resubscribe.go), over every run.
 */
module ResumeOutcomes {
  import opened Basics
  import opened ResumeGate

  ghost predicate EndedWith(st: State, s: SubscriptionId, end: End) {
    s in st.subscriptions && st.subscriptions[s].pc == Ended(end)
  }

  /** The answer of the read that `s` joined. */
  function AnswerFor(st: State, s: SubscriptionId): Option<ReadResult> {
    if s !in st.subscriptions then None
    else match st.subscriptions[s].pc
      case Reading(read, _) => if IsAnswered(st, read) then Some(st.fetches[read].result) else None
      case Judging(read, _) => if IsAnswered(st, read) then Some(st.fetches[read].result) else None
      case _ => None
  }

  /** One of the four moments at which a removal is looked for. */
  predicate LooksForRemoval(e: Event, s: SubscriptionId) {
    e == LoopEvent(s) || e == CheckEvent(s) || e == JudgeEvent(s) || e == SlotOverEvent(s)
  }

  predicate BudgetSpent(st: State, s: SubscriptionId) {
    s in st.subscriptions && st.subscriptions[s].attempt.Some?
    && st.subscriptions[s].attempt.value.attempts >= st.timing.maxAttempts
  }

  /**
   A subscription that ends was refused the list, was not listed by the answer it waited for, had no attempts
   left, or its sub-account stood removed; and it is removal that is told when there are two reasons.
   */
  lemma WhyEnded(states: seq<State>, events: seq<Event>, timing: Timing, n: nat, s: SubscriptionId, end: End)
    requires Run(states, events, timing) && n < |events|
    requires s in states[n].subscriptions && !states[n].subscriptions[s].pc.Ended? && EndedWith(states[n + 1], s, end)
    ensures var st, e, account := states[n], events[n], states[n].subscriptions[s].account;
      match end
      case ListRefused => e == ReadOverEvent(s) && AnswerFor(st, s) == Some(Refused)
      case NotListed =>
        && e == JudgeEvent(s) && account !in st.removed
        && AnswerFor(st, s).Some? && AnswerFor(st, s).value.Listed? && account !in AnswerFor(st, s).value.ids
      case RetriesExhausted => e == LoopEvent(s) && account !in st.removed && BudgetSpent(st, s)
      case AccessRemoved => LooksForRemoval(e, s) && account in st.removed
  {
    assert Moves(states, events, n);
  }

  /**
   Each of these reasons does end it; a read that failed otherwise makes it ask again, one that listed it does
   not.
   */
  lemma MustEnd(states: seq<State>, events: seq<Event>, timing: Timing, n: nat, s: SubscriptionId)
    requires Run(states, events, timing) && n < |events| && s in states[n].subscriptions
    ensures var st, e, st' := states[n], events[n], states[n + 1];
      var account := st.subscriptions[s].account;
      && s in st'.subscriptions
      && (LooksForRemoval(e, s) && account in st.removed ==> EndedWith(st', s, AccessRemoved))
      && (e == LoopEvent(s) && account !in st.removed && BudgetSpent(st, s) ==> EndedWith(st', s, RetriesExhausted))
      && (e == ReadOverEvent(s) && AnswerFor(st, s) == Some(Refused) ==> EndedWith(st', s, ListRefused))
      && (e == ReadOverEvent(s) && AnswerFor(st, s) == Some(Failed) ==> st'.subscriptions[s].pc == Asking)
      && (e == ReadOverEvent(s) && AnswerFor(st, s).Some? && AnswerFor(st, s).value.Listed? ==>
            st'.subscriptions[s].pc.Judging?)
      && (e == JudgeEvent(s) && account !in st.removed ==>
            if AnswerFor(st, s).Some? && AnswerFor(st, s).value.Listed? && account in AnswerFor(st, s).value.ids
            then st'.subscriptions[s].pc.Reserving?
            else EndedWith(st', s, NotListed))
      && (e == SlotOverEvent(s) && account !in st.removed ==> st'.subscriptions[s].pc.Resumed?)
  {
    assert Moves(states, events, n);
  }

  lemma StepEnded(st: State, e: Event, s: SubscriptionId, end: End)
    requires Enabled(st, e) && EndedWith(st, s, end)
    ensures EndedWith(Step(st, e), s, end)
  {
  }

  /** What has ended stays ended, for the same reason. */
  lemma {:induction false} EndedForGood(states: seq<State>, events: seq<Event>, timing: Timing, i: nat, j: nat,
                                        s: SubscriptionId, end: End)
    requires Run(states, events, timing) && i <= j < |states| && EndedWith(states[i], s, end)
    ensures EndedWith(states[j], s, end)
    decreases j
  {
    hide Enabled, Step, EndedWith;
    if i < j {
      EndedForGood(states, events, timing, i, j - 1, s, end);
      assert Moves(states, events, j - 1);
      StepEnded(states[j - 1], events[j - 1], s, end);
    }
  }

  // ---------- Removals ----------

  /** What the latest of the first `n` updates said of an account. */
  function LastUpdate(events: seq<Event>, account: AccountId, n: nat): Option<bool>
    requires n <= |events|
  {
    if n == 0 then None
    else match events[n - 1]
      case UpdateEvent(a, removed) => if a == account then Some(removed) else LastUpdate(events, account, n - 1)
      case _ => LastUpdate(events, account, n - 1)
  }

  /** A sub-account stands removed exactly when the latest update about it removed it. */
  lemma {:induction false} RemovedAsTold(states: seq<State>, events: seq<Event>, timing: Timing, n: nat,
                                         account: AccountId)
    requires Run(states, events, timing) && n < |states|
    ensures account in states[n].removed <==> LastUpdate(events, account, n) == Some(true)
    decreases n
  {
    if n > 0 {
      RemovedAsTold(states, events, timing, n - 1, account);
      assert Moves(states, events, n - 1);
    }
  }

  // ---------- The budget ----------

  /** When the subscription was last confirmed since the server last ended it, if it was. */
  function UpSince(states: seq<State>, events: seq<Event>, s: SubscriptionId, n: nat): Option<Time>
    requires |states| == |events| + 1 && n < |states|
  {
    if n == 0 || events[n - 1] == ServerEndedEvent(s) then None
    else if events[n - 1] == ReadyEvent(s) then Some(states[n - 1].now)
    else UpSince(states, events, s, n - 1)
  }

  /** The attempts begun since the budget was last new, read off the events. */
  function Spent(states: seq<State>, events: seq<Event>, timing: Timing, s: SubscriptionId, n: nat): nat
    requires |states| == |events| + 1 && n < |states|
  {
    if n == 0 then 0
    else
      var before := Spent(states, events, timing, s, n - 1);
      if events[n - 1] == ServerEndedEvent(s) then
        var up := UpSince(states, events, s, n - 1);
        if up.Some? && states[n - 1].now - up.value >= timing.stableAfter then 0 else before
      else if events[n - 1] == LoopEvent(s) && s in states[n].subscriptions && states[n].subscriptions[s].pc.BackingOff?
      then before + 1
      else before
  }

  /** The budget is what the events say it is: renewed exactly by a stable period, one less for each attempt begun. */
  ghost predicate BudgetTold(st: State, s: SubscriptionId, up: Option<Time>, spent: nat) {
    if s in st.subscriptions && st.subscriptions[s].attempt.Some? then
      var a := st.subscriptions[s].attempt.value;
      && a.attempts == spent && a.ready == up.Some? && (up.Some? ==> a.readyAt == up.value)
    else spent == 0
  }

  lemma StepTold(st: State, e: Event, s: SubscriptionId, up: Option<Time>, spent: nat, timing: Timing)
    requires Enabled(st, e) && BudgetTold(st, s, up, spent) && st.timing == timing
    ensures var st' := Step(st, e);
      var up' := if e == ServerEndedEvent(s) then None else if e == ReadyEvent(s) then Some(st.now) else up;
      var spent' :=
        if e == ServerEndedEvent(s) then if up.Some? && st.now - up.value >= timing.stableAfter then 0 else spent
        else if e == LoopEvent(s) && s in st'.subscriptions && st'.subscriptions[s].pc.BackingOff? then spent + 1
        else spent;
      BudgetTold(st', s, up', spent')
  {
  }

  lemma {:induction false} BudgetAsTold(states: seq<State>, events: seq<Event>, timing: Timing, n: nat,
                                        s: SubscriptionId)
    requires Run(states, events, timing) && n < |states|
    ensures BudgetTold(states[n], s, UpSince(states, events, s, n), Spent(states, events, timing, s, n))
    decreases n
  {
    hide Enabled, Step, Inv;
    if n > 0 {
      BudgetAsTold(states, events, timing, n - 1, s);
      RunKeeps(states, events, timing, n - 1);
      assert Moves(states, events, n - 1);
      hide BudgetTold;
      StepTold(states[n - 1], events[n - 1], s, UpSince(states, events, s, n - 1),
        Spent(states, events, timing, s, n - 1),
               timing);
    }
  }
}
