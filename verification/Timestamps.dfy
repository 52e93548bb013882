/**
 The signing timestamp allocator (auth/timestamps.go): any number of threads
 read the clock, load the last timestamp given out, and compare-and-swap their
 own in. One allocator serves one key.
 */
module Timestamps {
  import opened Numbers

  const MAX_SKEW: int := 5_000

  type ThreadId = nat

  /** Milliseconds a turn goes on with: not before the epoch, and leaving room for the window. */
  type ClockMs = x: int | 0 <= x <= 0x7FFF_FFFF_FFFF_FFFF - 5_000

  /** Where a thread is in the loop, with its local variables. */
  datatype Pc =
    | Looping
    | Clocked(now: ClockMs)
    | Loaded(now: ClockMs, observed: Int64)
    | Returned(value: Int64)
    | Failed(error: Failure)

  datatype Failure = ClockBeforeEpoch | CeilingOverflow | SequenceExhausted | CapacityExhausted

  /** A timestamp given out, and the clock value its thread read for it. */
  datatype Issue = Issue(thread: ThreadId, value: Int64, clock: ClockMs)

  datatype State = State(last: Int64, threads: map<ThreadId, Pc>, issued: seq<Issue>)

  datatype Event =
    | CallEvent(t: ThreadId)
    | ClockEvent(t: ThreadId, now: Int64)
    | LoadEvent(t: ThreadId)
    | SwapEvent(t: ThreadId, patient: bool)

  const Initial := State(0, map[], [])

  function CandidateFor(now: ClockMs, observed: Int64): Int64
    requires observed < MAX_INT64
  {
    if observed >= now then observed + 1 else now
  }

  predicate At(st: State, t: ThreadId, pc: Pc) {
    t in st.threads && st.threads[t] == pc
  }

  predicate Enabled(st: State, e: Event) {
    match e
    case CallEvent(t) => t !in st.threads
    case ClockEvent(t, _) => At(st, t, Looping)
    case LoadEvent(t) => t in st.threads && st.threads[t].Clocked?
    case SwapEvent(t, _) => t in st.threads && st.threads[t].Loaded?
  }

  function Goto(st: State, t: ThreadId, pc: Pc): State {
    st.(threads := st.threads[t := pc])
  }

  function ReadClock(now: Int64): Pc {
    if now < 0 then Failed(ClockBeforeEpoch)
    else if now > MAX_INT64 - MAX_SKEW then Failed(CeilingOverflow)
    else Clocked(now)
  }

  /** The last section of a turn; `patient` says the backpressure limit is not reached. */
  function Swap(st: State, t: ThreadId, now: ClockMs, observed: Int64, patient: bool): State
  {
    if observed >= now && observed == MAX_INT64 then Goto(st, t, Failed(SequenceExhausted))
    else
      var candidate := CandidateFor(now, observed);
      if candidate <= now + MAX_SKEW && st.last == observed then
        Goto(st, t, Returned(candidate)).(last := candidate, issued := st.issued + [Issue(t, candidate, now)])
      else Goto(st, t, if patient then Looping else Failed(CapacityExhausted))
  }

  function Step(st: State, e: Event): State
    requires Enabled(st, e)
  {
    match e
    case CallEvent(t) => Goto(st, t, Looping)
    case ClockEvent(t, now) => Goto(st, t, ReadClock(now))
    case LoadEvent(t) => Goto(st, t, Loaded(st.threads[t].now, st.last))
    case SwapEvent(t, patient) => Swap(st, t, st.threads[t].now, st.threads[t].observed, patient)
  }

  // ---------- Invariant ----------

  /** A thread's observation is not ahead of `last`. */
  predicate Sound(pc: Pc, last: Int64) {
    match pc
    case Loaded(now, observed) => 0 <= observed <= last
    case _ => true
  }

  predicate InWindow(i: Issue) {
    i.clock <= i.value <= i.clock + MAX_SKEW && i.value > 0
  }

  ghost predicate Inv(st: State) {
    && 0 <= st.last
    && (forall t :: t in st.threads ==> Sound(st.threads[t], st.last))
    && (forall i :: 0 <= i < |st.issued| ==> InWindow(st.issued[i]) && st.issued[i].value <= st.last)
    && (forall i, j :: 0 <= i < j < |st.issued| ==> st.issued[i].value < st.issued[j].value)
    && (forall t :: t in st.threads && st.threads[t].Returned? ==> exists i: nat :: IssuedTo(st, i, t))
  }

  /** Entry `i` of the history is what thread `t` was given. */
  predicate IssuedTo(st: State, i: nat, t: ThreadId) {
    i < |st.issued| && t in st.threads && st.threads[t] == Returned(st.issued[i].value) && st.issued[i].thread == t
  }

  lemma StepKeeps(st: State, e: Event)
    requires Inv(st) && Enabled(st, e)
    ensures Inv(Step(st, e)) && st.issued <= Step(st, e).issued && st.last <= Step(st, e).last
  {
    var st' := Step(st, e);
    forall t | t in st'.threads && st'.threads[t].Returned? ensures exists i: nat :: IssuedTo(st', i, t) {
      if t != e.t || (t in st.threads && st.threads[t].Returned?) {
        var i: nat :| IssuedTo(st, i, t);
        assert IssuedTo(st', i, t);
      } else {
        assert IssuedTo(st', |st.issued|, t);
      }
    }
  }

  // ---------- Runs ----------

  ghost predicate Run(states: seq<State>, events: seq<Event>) {
    && |states| == |events| + 1
    && states[0] == Initial
    && (forall i :: 0 <= i < |events| ==> Moves(states, events, i))
  }

  ghost predicate Moves(states: seq<State>, events: seq<Event>, i: nat)
    requires |states| == |events| + 1 && i < |events|
  {
    Enabled(states[i], events[i]) && states[i + 1] == Step(states[i], events[i])
  }

  lemma {:induction false} RunKeeps(states: seq<State>, events: seq<Event>, i: nat)
    requires Run(states, events) && i < |states|
    ensures Inv(states[i])
    decreases i
  {
    if i > 0 {
      RunKeeps(states, events, i - 1);
      assert Moves(states, events, i - 1);
      StepKeeps(states[i - 1], events[i - 1]);
    }
  }

  /**
   Over any number of threads and any clock: all timestamps given out are
   distinct and increase in the order they were swapped in, each lies between
   the clock value its thread read and five seconds later, and fits an int64.
   */
  lemma TimestampsDistinct(states: seq<State>, events: seq<Event>, n: nat)
    requires Run(states, events) && n < |states|
    ensures forall i, j :: 0 <= i < j < |states[n].issued| ==> states[n].issued[i].value < states[n].issued[j].value
    ensures forall i :: 0 <= i < |states[n].issued| ==>
      0 <= states[n].issued[i].clock <= states[n].issued[i].value <= states[n].issued[i].clock + MAX_SKEW <= MAX_INT64
  {
    RunKeeps(states, events, n);
    forall i | 0 <= i < |states[n].issued| ensures InWindow(states[n].issued[i]) {}
  }

  /** Two calls never return the same timestamp. */
  lemma CallersDiffer(states: seq<State>, events: seq<Event>, n: nat, a: ThreadId, b: ThreadId)
    requires Run(states, events) && n < |states| && a != b
    requires a in states[n].threads && states[n].threads[a].Returned?
    requires b in states[n].threads && states[n].threads[b].Returned?
    ensures states[n].threads[a].value != states[n].threads[b].value
  {
    RunKeeps(states, events, n);
    var st := states[n];
    var i: nat :| IssuedTo(st, i, a);
    var j: nat :| IssuedTo(st, j, b);
    assert i != j;
    if i < j { assert st.issued[i].value < st.issued[j].value; }
      else { assert st.issued[j].value < st.issued[i].value; }
  }

  /** Lock freedom: a swap within the window fails only because another thread was given a timestamp since the load. */
  lemma FailureMeansProgress(st: State, t: ThreadId, patient: bool)
    requires Inv(st) && t in st.threads && st.threads[t].Loaded?
    requires st.threads[t].observed < MAX_INT64
      && CandidateFor(st.threads[t].now, st.threads[t].observed) <= st.threads[t].now + MAX_SKEW
    requires Step(st, SwapEvent(t, patient)).issued == st.issued
    ensures st.last > st.threads[t].observed
  {
  }

  // ---------- Which timestamp ----------

  /** The timestamp given out before entry `i`, 0 when it is the first. */
  function Previous(issued: seq<Issue>, i: nat): Int64
    requires i <= |issued|
  {
    if i == 0 then 0 else issued[i - 1].value
  }

  function Later(a: int, b: int): int {
    if a > b then a else b
  }

  /** Each timestamp is as early as it can be: its clock, or one more than the timestamp before. */
  ghost predicate Tight(st: State) {
    && st.last == Previous(st.issued, |st.issued|)
    && (forall i :: 0 <= i < |st.issued| ==>
          st.issued[i].value == Later(st.issued[i].clock, Previous(st.issued, i) + 1))
  }

  lemma StepTight(st: State, e: Event)
    requires Tight(st) && Enabled(st, e)
    ensures Tight(Step(st, e))
  {
    var st' := Step(st, e);
    if st'.issued == st.issued {
      SameTight(st, st');
    } else {
      var pc := st.threads[e.t];
      assert st'.issued == st.issued + [Issue(e.t, st'.last, pc.now)];
      assert st'.last == Later(pc.now, st.last + 1);
      hide Step, Enabled;
      IssueTight(st, st', Issue(e.t, st'.last, pc.now));
    }
  }

  lemma SameTight(st: State, st': State)
    requires Tight(st) && st'.issued == st.issued && st'.last == st.last
    ensures Tight(st')
  {
  }

  lemma IssueTight(st: State, st': State, issue: Issue)
    requires Tight(st) && st'.issued == st.issued + [issue] && st'.last == issue.value
    requires issue.value == Later(issue.clock, st.last + 1)
    ensures Tight(st')
  {
    forall i | 0 <= i <= |st.issued| ensures Previous(st'.issued, i) == Previous(st.issued, i) {}
  }

  /** Over any run each timestamp is the clock its thread read, or one more than the timestamp given out before it. */
  lemma {:induction false} EarliestPossible(states: seq<State>, events: seq<Event>, n: nat)
    requires Run(states, events) && n < |states|
    ensures Tight(states[n])
    decreases n
  {
    if n > 0 {
      EarliestPossible(states, events, n - 1);
      assert Moves(states, events, n - 1);
      hide Tight, Enabled, Step;
      StepTight(states[n - 1], events[n - 1]);
    }
  }

  /**
   When a turn ends with a timestamp and when it does not: with the earliest one, if nobody was given one since
   the load and it is within five seconds of the clock; otherwise the thread goes on, or fails once it may not
   wait. There is none after the greatest.
   */
  lemma TurnEnds(st: State, t: ThreadId, patient: bool)
    requires Inv(st) && t in st.threads && st.threads[t].Loaded?
    ensures var now, observed := st.threads[t].now, st.threads[t].observed;
      var earliest := Later(now, observed + 1);
      var pc := Step(st, SwapEvent(t, patient)).threads[t];
      && (pc.Returned? <==> st.last == observed && earliest <= now + 5_000)
      && (pc.Returned? ==> pc.value == earliest)
      && (pc.Looping? <==> !pc.Returned? && patient && earliest <= 0x7FFF_FFFF_FFFF_FFFF)
      && (pc == Failed(CapacityExhausted) <==> !pc.Returned? && !patient && earliest <= 0x7FFF_FFFF_FFFF_FFFF)
      && (pc == Failed(SequenceExhausted) <==> earliest > 0x7FFF_FFFF_FFFF_FFFF)
  {
  }

  /** A clock before the epoch, or within five seconds of the greatest timestamp, fails the call. */
  lemma ClockUsable(st: State, t: ThreadId, now: Int64)
    requires Enabled(st, ClockEvent(t, now))
    ensures var pc := Step(st, ClockEvent(t, now)).threads[t];
      if now < 0 then pc == Failed(ClockBeforeEpoch)
      else if now + 5_000 > 0x7FFF_FFFF_FFFF_FFFF then pc == Failed(CeilingOverflow)
      else pc == Clocked(now)
  {
  }

  // ---------- The allocator ----------

  class Allocator {
    var last: Int64
    ghost var threads: map<ThreadId, Pc>
    ghost var issued: seq<Issue>

    ghost function Model(): State
      reads this
    {
      State(last, threads, issued)
    }

    constructor ()
      ensures Model() == Initial && Inv(Model())
    {
      last, threads, issued := 0, map[], [];
    }

    method Load(ghost t: ThreadId) returns (observed: Int64)
      requires Inv(Model()) && Enabled(Model(), LoadEvent(t))
      modifies this`threads
      ensures Model() == Step(old(Model()), LoadEvent(t)) && Inv(Model())
      ensures observed == last
    {
      StepKeeps(Model(), LoadEvent(t));
      observed := last;
      threads := threads[t := Loaded(threads[t].now, last)];
    }

    /** The rest of a turn, on a possibly stale observation. */
    method Turn(ghost t: ThreadId, now: ClockMs, observed: Int64, patient: bool) returns (pc: Pc)
      requires Inv(Model()) && At(Model(), t, Loaded(now, observed))
      modifies this
      ensures Model() == Step(old(Model()), SwapEvent(t, patient)) && Inv(Model())
      ensures threads[t] == pc
    {
      StepKeeps(Model(), SwapEvent(t, patient));
      var ceiling := now + MAX_SKEW;
      var candidate: Int64 := now;
      if observed >= now {
        if observed == MAX_INT64 {
          pc := Failed(SequenceExhausted);
          threads := threads[t := pc];
          return;
        }
        candidate := observed + 1;
      }
      var swapped := false;
      if candidate <= ceiling {
        swapped := CompareAndSwap(observed, candidate);
      }
      if swapped {
        pc := Returned(candidate);
        issued := issued + [Issue(t, candidate, now)];
      } else {
        pc := if patient then Looping else Failed(CapacityExhausted);
      }
      threads := threads[t := pc];
    }

    method CompareAndSwap(observed: Int64, candidate: Int64) returns (swapped: bool)
      modifies this`last
      ensures swapped == (old(last) == observed)
      ensures last == if swapped then candidate else old(last)
    {
      swapped := last == observed;
      if swapped {
        last := candidate;
      }
    }
  }
}
