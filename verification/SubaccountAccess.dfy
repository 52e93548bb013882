/**
 The shared state of the resume gate as the object it is: each method is one
 section under its mutex, proved to be the step of `ResumeGate` it stands for.
 */
module SubaccountAccess {
  import opened Basics
  import opened ResumeGate

  class SubaccountAccess {
    const timing: Timing
    var removed: set<AccountId>
    var next: Option<ReadId>
    var lastRead: Option<Time>
    var nextAttemptAt: Option<Time>
    ghost var fetches: map<ReadId, AccessRead>
    ghost var subscriptions: map<SubscriptionId, Subscription>
    ghost var now: Time
    ghost var step: nat
    ghost var began: seq<Time>
    ghost var slots: seq<Time>

    ghost function Model(): State
      reads this
    {
      State(timing, removed, next, lastRead, nextAttemptAt, fetches, subscriptions, now, step, began, slots)
    }

    constructor (timing: Timing)
      requires timing.maxAttempts >= 0 && timing.attemptSpacing >= 0 && timing.readInterval >= 0
      ensures Model() == Initial(timing) && Inv(Model())
    {
      this.timing := timing;
      removed, next, lastRead, nextAttemptAt := {}, None, None, None;
      fetches, subscriptions, now, step, began, slots := map[], map[], 0, 0, [], [];
    }

    /** One auth.v1.Subaccount update, in arrival order. */
    method NoteUpdate(account: AccountId, isRemoved: bool)
      requires Inv(Model())
      modifies this
      ensures Model() == Step(old(Model()), UpdateEvent(account, isRemoved)) && Inv(Model())
    {
      StepKeeps(Model(), UpdateEvent(account, isRemoved));
      if isRemoved {
        removed := removed + {account};
      } else {
        removed := removed - {account};
      }
      step := step + 1;
    }

    /** The first section of `read`: the request to wait for, and whether it has to be started. */
    method JoinRead(ghost s: SubscriptionId, newRead: ReadId) returns (call: ReadId, start: bool)
      requires Inv(Model()) && Enabled(Model(), JoinEvent(s, newRead))
      modifies this
      ensures Model() == Step(old(Model()), JoinEvent(s, newRead)) && Inv(Model())
      ensures next == Some(call) && start == old(next).None?
    {
      StepKeeps(Model(), JoinEvent(s, newRead));
      start := next.None?;
      if start {
        next := Some(newRead);
        fetches := fetches[newRead := Waiting];
      }
      call := next.value;
      subscriptions := subscriptions[s := subscriptions[s].(pc := Reading(call, step))];
      step := step + 1;
    }

    /** `runRead` up to its sleep: until when it has to wait. */
    method PaceRead(call: ReadId, clock: Time) returns (until: Time)
      requires Inv(Model()) && Enabled(Model(), PaceEvent(call)) && clock == now
      modifies this
      ensures Model() == Step(old(Model()), PaceEvent(call)) && Inv(Model())
      ensures fetches[call] == Pacing(until)
    {
      StepKeeps(Model(), PaceEvent(call));
      until := if lastRead.Some? then lastRead.value + timing.readInterval else clock;
      fetches := fetches[call := Pacing(until)];
      step := step + 1;
    }

    /** `runRead` before it fetches: callers from here on need a read that starts after them. */
    method BeginRead(call: ReadId, clock: Time)
      requires Inv(Model()) && Enabled(Model(), FetchEvent(call)) && clock == now
      modifies this
      ensures Model() == Step(old(Model()), FetchEvent(call)) && Inv(Model())
    {
      StepKeeps(Model(), FetchEvent(call));
      next := None;
      lastRead := Some(clock);
      fetches, began, step := fetches[call := Fetching(step)], began + [clock], step + 1;
    }

    /** The client's next attempt slot, and the wait for it; `clock` was read before the mutex was acquired. */
    method ReserveAttempt(ghost s: SubscriptionId, clock: Time) returns (wait: Time)
      requires Inv(Model()) && Enabled(Model(), ReserveEvent(s, clock))
      modifies this
      ensures Model() == Step(old(Model()), ReserveEvent(s, clock)) && Inv(Model())
      ensures wait >= 0 && Last(slots) == clock + wait
    {
      StepKeeps(Model(), ReserveEvent(s, clock));
      var slot := if nextAttemptAt.Some? then nextAttemptAt.value else clock;
      if slot < clock {
        slot := clock;
      }
      nextAttemptAt := Some(slot + timing.attemptSpacing);
      wait := slot - clock;
      slots, step := slots + [slot], step + 1;
      var pc := subscriptions[s].pc;
      subscriptions := subscriptions[s := subscriptions[s].(pc := InSlot(pc.read, pc.joined, slot))];
    }
  }
}
