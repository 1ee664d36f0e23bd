/** The per-conversation lock pool under any interleaving of any number of tasks. */
module LockPool {
  import opened Conversation

  /** Slots are shared objects: the pool maps a key to the identity of a slot,
      and users and locked hold the fields of every slot made so far. */
  datatype Pool = Pool(slots: map<ConversationKey, nat>, users: map<nat, int>, locked: set<nat>, nextSlot: nat) {
    function UsersOf(slot: nat): int {
      if slot in users then users[slot] else 0
    }
  }

  // ---- the guarded sections ----

  /** Find or make the slot of a key and count one more user. */
  function Reference(pool: Pool, key: ConversationKey): Pool {
    if key in pool.slots then
      pool.(users := pool.users[pool.slots[key] := pool.UsersOf(pool.slots[key]) + 1])
    else
      pool.(slots := pool.slots[key := pool.nextSlot], users := pool.users[pool.nextSlot := 1],
            nextSlot := pool.nextSlot + 1)
  }

  /** Count one user less and drop the slot when it is idle. */
  function Unreference(pool: Pool, key: ConversationKey, slot: nat): Pool {
    var left := pool.UsersOf(slot) - 1;
    var counted := pool.(users := pool.users[slot := left]);
    if left == 0 && slot !in pool.locked then counted.(slots := pool.slots - {key}) else counted
  }

  class ConversationLockPool {
    var slots: map<ConversationKey, nat>
    var users: map<nat, int>
    var locked: set<nat>
    var nextSlot: nat

    ghost function Value(): Pool
      reads this
    {
      Pool(slots, users, locked, nextSlot)
    }

    constructor ()
      ensures Value() == Pool(map[], map[], {}, 0)
    {
      slots, users, locked, nextSlot := map[], map[], {}, 0;
    }

    /** The guarded entry of hold. */
    method TakeReference(key: ConversationKey) returns (slot: nat)
      modifies this
      ensures Value() == Reference(old(Value()), key)
      ensures key in slots && slots[key] == slot
    {
      if key !in slots {
        slots, users := slots[key := nextSlot], users[nextSlot := 0];
        nextSlot := nextSlot + 1;
      }
      slot := slots[key];
      users := users[slot := (if slot in users then users[slot] else 0) + 1];
    }

    method ReleaseReference(key: ConversationKey, slot: nat)
      modifies this
      ensures Value() == Unreference(old(Value()), key, slot)
    {
      users := users[slot := (if slot in users then users[slot] else 0) - 1];
      if users[slot] == 0 && slot !in locked {
        slots := slots - {key};
      }
    }
  }

  // ---- tasks ----

  /** Leaving: the lock was released, or waiting for it was cancelled. */
  datatype Phase = Waiting | Holding | Leaving

  datatype Task = Task(key: ConversationKey, slot: nat, phase: Phase)

  /** leaked counts, by key, the references whose release was itself cancelled;
      owner records which task took each locked slot. */
  datatype State = State(pool: Pool, tasks: map<nat, Task>, leaked: map<ConversationKey, nat>, owner: map<nat, nat>)

  datatype Step =
    | Enter(task: nat, key: ConversationKey)
    | Acquire(task: nat)
    | CancelWaiting(task: nat)
    | Release(task: nat)
    | Forget(task: nat)
    | Leak(task: nat)

  predicate InPhase(s: State, task: nat, phase: Phase) {
    task in s.tasks && s.tasks[task].phase == phase
  }

  predicate Enabled(s: State, step: Step) {
    match step
    case Enter(task, key) => task !in s.tasks
    case Acquire(task) => InPhase(s, task, Waiting) && s.tasks[task].slot !in s.pool.locked
    case CancelWaiting(task) => InPhase(s, task, Waiting)
    case Release(task) => InPhase(s, task, Holding)
    case Forget(task) => InPhase(s, task, Leaving)
    case Leak(task) => InPhase(s, task, Leaving)
  }

  function LeakedOf(s: State, key: ConversationKey): nat {
    if key in s.leaked then s.leaked[key] else 0
  }

  function Move(s: State, task: nat, phase: Phase): map<nat, Task>
    requires task in s.tasks
  {
    s.tasks[task := s.tasks[task].(phase := phase)]
  }

  function After(s: State, step: Step): State
    requires Enabled(s, step)
  {
    match step
    case Enter(task, key) =>
      var pool := Reference(s.pool, key);
      s.(pool := pool, tasks := s.tasks[task := Task(key, pool.slots[key], Waiting)])
    case Acquire(task) =>
      var slot := s.tasks[task].slot;
      s.(pool := s.pool.(locked := s.pool.locked + {slot}), owner := s.owner[slot := task],
         tasks := Move(s, task, Holding))
    case CancelWaiting(task) => s.(tasks := Move(s, task, Leaving))
    case Release(task) =>
      var slot := s.tasks[task].slot;
      s.(pool := s.pool.(locked := s.pool.locked - {slot}), owner := s.owner - {slot}, tasks := Move(s, task, Leaving))
    case Forget(task) =>
      s.(pool := Unreference(s.pool, s.tasks[task].key, s.tasks[task].slot), tasks := s.tasks - {task})
    case Leak(task) =>
      var key := s.tasks[task].key;
      s.(tasks := s.tasks - {task}, leaked := s.leaked[key := LeakedOf(s, key) + 1])
  }

  function Start(): State {
    State(Pool(map[], map[], {}, 0), map[], map[], map[])
  }

  // ---- the invariant ----

  /** The tasks that refer to a key. */
  function Refs(tasks: map<nat, Task>, key: ConversationKey): set<nat> {
    set t | t in tasks && tasks[t].key == key
  }

  /** A key has a slot exactly while somebody refers to it or a release of it
      leaked, and the slot counts those. */
  ghost predicate KeyOk(s: State, key: ConversationKey) {
    if key in s.pool.slots then
      && s.pool.slots[key] < s.pool.nextSlot
      && s.pool.UsersOf(s.pool.slots[key]) == |Refs(s.tasks, key)| + LeakedOf(s, key) > 0
    else
      Refs(s.tasks, key) == {} && LeakedOf(s, key) == 0
  }

  ghost predicate OwnSlots(s: State) {
    forall a, b | a in s.pool.slots && b in s.pool.slots && a != b :: s.pool.slots[a] != s.pool.slots[b]
  }

  /** All tasks of one key share the slot the pool has for it. */
  ghost predicate OneSlotPerKey(s: State) {
    forall t | t in s.tasks :: s.tasks[t].key in s.pool.slots && s.pool.slots[s.tasks[t].key] == s.tasks[t].slot
  }

  /** A lock is taken exactly when its owner is inside hold. */
  ghost predicate LocksHeld(s: State) {
    && s.pool.locked == s.owner.Keys
    && (forall slot | slot in s.owner ::
          s.owner[slot] in s.tasks && s.tasks[s.owner[slot]].slot == slot && s.tasks[s.owner[slot]].phase.Holding?)
    && (forall t | t in s.tasks && s.tasks[t].phase.Holding? ::
        s.tasks[t].slot in s.owner && s.owner[s.tasks[t].slot] == t)
  }

  ghost predicate Inv(s: State) {
    (forall key :: KeyOk(s, key)) && OwnSlots(s) && OneSlotPerKey(s) && LocksHeld(s)
  }

  lemma JoinRefs(tasks: map<nat, Task>, task: nat, value: Task, key: ConversationKey)
    requires task !in tasks
    ensures |Refs(tasks[task := value], key)| == |Refs(tasks, key)| + (if value.key == key then 1 else 0)
  {
    assert Refs(tasks[task := value], key) == Refs(tasks, key) + (if value.key == key then {task} else {});
  }

  lemma LeaveRefs(tasks: map<nat, Task>, task: nat, key: ConversationKey)
    requires task in tasks
    ensures |Refs(tasks - {task}, key)| == |Refs(tasks, key)| - (if tasks[task].key == key then 1 else 0)
  {
    assert Refs(tasks - {task}, key) == Refs(tasks, key) - (if tasks[task].key == key then {task} else {});
  }

  lemma MoveKeepsRefs(s: State, task: nat, phase: Phase, key: ConversationKey)
    requires task in s.tasks
    ensures Refs(Move(s, task, phase), key) == Refs(s.tasks, key)
  {
  }

  lemma EnterKeepsKey(s: State, task: nat, key: ConversationKey, other: ConversationKey)
    requires Inv(s) && Enabled(s, Enter(task, key))
    ensures KeyOk(After(s, Enter(task, key)), other)
  {
    assert KeyOk(s, other) && KeyOk(s, key);
    JoinRefs(s.tasks, task, After(s, Enter(task, key)).tasks[task], other);
    hide Refs, LocksHeld, OneSlotPerKey;
  }

  lemma EnterKeeps(s: State, task: nat, key: ConversationKey)
    requires Inv(s) && Enabled(s, Enter(task, key))
    ensures Inv(After(s, Enter(task, key)))
  {
    forall other ensures KeyOk(After(s, Enter(task, key)), other) {
      EnterKeepsKey(s, task, key, other);
    }
    EnterKeepsTasks(s, task, key);
    hide OwnSlots, OneSlotPerKey, LocksHeld, KeyOk;
  }

  lemma EnterKeepsTasks(s: State, task: nat, key: ConversationKey)
    requires Inv(s) && Enabled(s, Enter(task, key))
    ensures var s' := After(s, Enter(task, key)); OwnSlots(s') && OneSlotPerKey(s') && LocksHeld(s')
  {
    EnterOwnSlots(s, task, key);
    hide KeyOk, OwnSlots;
  }

  lemma EnterOwnSlots(s: State, task: nat, key: ConversationKey)
    requires Inv(s) && Enabled(s, Enter(task, key))
    ensures OwnSlots(After(s, Enter(task, key)))
  {
    forall other | other in s.pool.slots ensures s.pool.slots[other] < s.pool.nextSlot {
      assert KeyOk(s, other);
    }
    hide KeyOk, LocksHeld, OneSlotPerKey;
  }

  /** Acquire, a cancelled wait and a release change phases only. */
  lemma PhaseKeeps(s: State, step: Step)
    requires step.Acquire? || step.CancelWaiting? || step.Release?
    requires Inv(s) && Enabled(s, step)
    ensures Inv(After(s, step))
  {
    var s' := After(s, step);
    forall key ensures KeyOk(s', key) {
      assert KeyOk(s, key);
      MoveKeepsRefs(s, step.task, s'.tasks[step.task].phase, key);
    }
    PhaseKeepsLocks(s, step);
    hide KeyOk, LocksHeld;
  }

  lemma PhaseKeepsLocks(s: State, step: Step)
    requires step.Acquire? || step.CancelWaiting? || step.Release?
    requires OneSlotPerKey(s) && LocksHeld(s) && Enabled(s, step)
    ensures LocksHeld(After(s, step))
  {
  }

  /** When the last reference goes, the lock is free, so the slot does go. */
  lemma NobodyHolds(s: State, task: nat)
    requires Inv(s) && Enabled(s, Forget(task)) && s.pool.UsersOf(s.tasks[task].slot) == 1
    ensures s.tasks[task].slot !in s.pool.locked
    ensures forall t | t in s.tasks && t != task :: s.tasks[t].key != s.tasks[task].key
  {
    var key := s.tasks[task].key;
    assert KeyOk(s, key);
    assert task in Refs(s.tasks, key);
    LeaveRefs(s.tasks, task, key);
    assert Refs(s.tasks - {task}, key) == {};
    forall t | t in s.tasks && t != task ensures s.tasks[t].key != key {
      assert t !in Refs(s.tasks - {task}, key);
    }
    if s.tasks[task].slot in s.pool.locked {
      assert false;
    }
  }

  lemma ForgetKeepsKey(s: State, task: nat, key: ConversationKey)
    requires Inv(s) && Enabled(s, Forget(task))
    ensures KeyOk(After(s, Forget(task)), key)
  {
    assert KeyOk(s, key) && KeyOk(s, s.tasks[task].key);
    LeaveRefs(s.tasks, task, key);
    assert task in Refs(s.tasks, s.tasks[task].key);
    if s.pool.UsersOf(s.tasks[task].slot) == 1 {
      NobodyHolds(s, task);
    }
    hide Refs, LocksHeld;
  }

  lemma ForgetKeeps(s: State, task: nat)
    requires Inv(s) && Enabled(s, Forget(task))
    ensures Inv(After(s, Forget(task)))
  {
    forall key ensures KeyOk(After(s, Forget(task)), key) {
      ForgetKeepsKey(s, task, key);
    }
    if s.pool.UsersOf(s.tasks[task].slot) == 1 {
      NobodyHolds(s, task);
    }
    hide KeyOk;
  }

  lemma LeakKeeps(s: State, task: nat)
    requires Inv(s) && Enabled(s, Leak(task))
    ensures Inv(After(s, Leak(task)))
  {
    forall key ensures KeyOk(After(s, Leak(task)), key) {
      assert KeyOk(s, key);
      LeaveRefs(s.tasks, task, key);
    }
    hide KeyOk;
  }

  lemma StepKeepsInv(s: State, step: Step)
    requires Inv(s) && Enabled(s, step)
    ensures Inv(After(s, step))
  {
    hide Inv, After;
    match step
    case Enter(task, key) => EnterKeeps(s, task, key);
    case Acquire(task) => PhaseKeeps(s, step);
    case CancelWaiting(task) => PhaseKeeps(s, step);
    case Release(task) => PhaseKeeps(s, step);
    case Forget(task) => ForgetKeeps(s, task);
    case Leak(task) => LeakKeeps(s, task);
  }

  // ---- whole runs ----

  ghost predicate IsRun(states: seq<State>, steps: seq<Step>) {
    && |states| == |steps| + 1 && states[0] == Start()
    && forall i {:trigger steps[i]} | 0 <= i < |steps| ::
         Enabled(states[i], steps[i]) && states[i + 1] == After(states[i], steps[i])
  }

  lemma {:induction false} RunKeepsInv(states: seq<State>, steps: seq<Step>)
    requires IsRun(states, steps)
    ensures Inv(states[|steps|])
    decreases |steps|
  {
    if steps != [] {
      RunKeepsInv(states[..|steps|], steps[..|steps| - 1]);
      StepKeepsInv(states[|steps| - 1], steps[|steps| - 1]);
    }
  }

  /** In every interleaving tasks of one key share one slot and at most one of
      them is inside hold. */
  lemma OneInsidePerKey(states: seq<State>, steps: seq<Step>, t: nat, u: nat)
    requires IsRun(states, steps)
    requires var s := states[|steps|]; t in s.tasks && u in s.tasks && s.tasks[t].key == s.tasks[u].key
    ensures var s := states[|steps|];
      && s.tasks[t].slot == s.tasks[u].slot
      && (s.tasks[t].phase.Holding? && s.tasks[u].phase.Holding? ==> t == u)
  {
    RunKeepsInv(states, steps);
  }

  ghost function KeysInUse(s: State): set<ConversationKey> {
    set t | t in s.tasks :: s.tasks[t].key
  }

  ghost function KeysLeaked(s: State): set<ConversationKey> {
    set key | key in s.leaked && s.leaked[key] > 0
  }

  /** The pool holds exactly the keys somebody refers to, and those kept alive
      by a release that was itself cancelled. */
  lemma PoolHoldsKeysInUse(states: seq<State>, steps: seq<Step>)
    requires IsRun(states, steps)
    ensures var s := states[|steps|]; s.pool.slots.Keys == KeysInUse(s) + KeysLeaked(s)
  {
    var s := states[|steps|];
    RunKeepsInv(states, steps);
    forall key ensures key in s.pool.slots <==> key in KeysInUse(s) + KeysLeaked(s) {
      assert KeyOk(s, key);
      if Refs(s.tasks, key) != {} {
        var t :| t in Refs(s.tasks, key);
        assert s.tasks[t].key in KeysInUse(s);
      } else {
        assert forall t | t in s.tasks :: t !in Refs(s.tasks, key);
      }
    }
  }

  lemma {:induction false} NoLeakNoLeaked(states: seq<State>, steps: seq<Step>)
    requires IsRun(states, steps) && forall i | 0 <= i < |steps| :: !steps[i].Leak?
    ensures states[|steps|].leaked == map[]
    decreases |steps|
  {
    if steps != [] {
      var n := |steps| - 1;
      NoLeakNoLeaked(states[..|steps|], steps[..n]);
      assert Enabled(states[n], steps[n]);
    }
  }

  /** If no release is cancelled, idle keys are gone. */
  lemma WithoutLeaksExactlyInUse(states: seq<State>, steps: seq<Step>)
    requires IsRun(states, steps) && forall i | 0 <= i < |steps| :: !steps[i].Leak?
    ensures states[|steps|].pool.slots.Keys == KeysInUse(states[|steps|])
  {
    PoolHoldsKeysInUse(states, steps);
    NoLeakNoLeaked(states, steps);
  }

  /** A step removes a slot only when nobody refers to it any more. */
  lemma SlotsRemovedOnlyIdle(s: State, step: Step, key: ConversationKey)
    requires Inv(s) && Enabled(s, step) && key in s.pool.slots && key !in After(s, step).pool.slots
    ensures Refs(After(s, step).tasks, key) == {} && LeakedOf(s, key) == 0
  {
    StepKeepsInv(s, step);
    assert KeyOk(After(s, step), key);
    assert step.Forget?;
  }

  lemma LeakedKeyStays(s: State, step: Step, key: ConversationKey)
    requires Inv(s) && Enabled(s, step) && key in KeysLeaked(s)
    ensures key in KeysLeaked(After(s, step))
  {
  }

  /** One cancelled release keeps its key in the pool for good: in every run, from
      the leak on, the key has a slot, whoever comes and goes. */
  lemma {:induction false} LeakedKeyStaysForGood(states: seq<State>, steps: seq<Step>, from: nat, key: ConversationKey)
    requires IsRun(states, steps) && from <= |steps| && key in KeysLeaked(states[from])
    ensures key in KeysLeaked(states[|steps|]) && key in states[|steps|].pool.slots
    decreases |steps|
  {
    RunKeepsInv(states, steps);
    if from < |steps| {
      LeakedKeyStaysForGood(states[..|steps|], steps[..|steps| - 1], from, key);
      RunKeepsInv(states[..|steps|], steps[..|steps| - 1]);
      LeakedKeyStays(states[|steps| - 1], steps[|steps| - 1], key);
    }
    assert KeyOk(states[|steps|], key);
    hide After, Enabled, OneSlotPerKey, LocksHeld;
  }

  /** Four steps are enough: one task enters, takes the lock, lets it go and is
      cancelled in its release. Nobody is left and the key still has its slot. */
  lemma FourStepsLeak(key: ConversationKey)
    ensures exists states: seq<State>, steps: seq<Step> ::
              IsRun(states, steps) && |steps| == 4
              && states[4].tasks == map[] && key in KeysLeaked(states[4]) && states[4].pool.slots.Keys == {key}
  {
    var entered := After(Start(), Enter(0, key));
    var holding := After(entered, Acquire(0));
    var leaving := After(holding, Step.Release(0));
    var leaked := After(leaving, Step.Leak(0));
    var states := [Start(), entered, holding, leaving, leaked];
    var steps := [Enter(0, key), Acquire(0), Step.Release(0), Step.Leak(0)];
    assert IsRun(states, steps);
    assert leaked.tasks == map[] && leaked.pool.slots.Keys == {key};
    assert states[4] == leaked;
  }

  /** Unrelated conversations never wait for each other: whoever blocks a
      waiting task is inside hold for the same key. */
  lemma BlockedOnlyBySameKey(s: State, task: nat)
    requires Inv(s) && InPhase(s, task, Waiting) && !Enabled(s, Acquire(task))
    ensures exists u :: InPhase(s, u, Holding) && s.tasks[u].key == s.tasks[task].key
  {
    var u := s.owner[s.tasks[task].slot];
    assert s.pool.slots[s.tasks[u].key] == s.pool.slots[s.tasks[task].key];
    assert InPhase(s, u, Holding);
  }
}
