/**
 * The reentrancy gate of src/djangostdnet/models.py:63-77.
 *
 * A `ThreadGate` keeps one nesting counter per thread, in a `defaultdict(int)`
 * keyed by the thread's identifier.  Entering reports whether the calling
 * thread was already inside and increments its counter; exiting decrements
 * it and drops the entry once it is zero.  The thread identifier, which the
 * source reads from `threading.current_thread()`, is a parameter here.
 */
module Gate {

  /** Thread identifier -> nesting depth (the gate's `states`). */
  type States = map<int, int>

  /** Reading `states[tid]` from a `defaultdict(int)`: 0 for an absent thread. */
  function Count(m: States, tid: int): int
  {
    if tid in m then m[tid] else 0
  }

  /** The state a well-used gate keeps: every stored counter is positive. */
  predicate AllPositive(m: States)
  {
    forall t :: t in m ==> m[t] > 0
  }

  /** The new `states` after `__enter__` on thread `tid` (models.py:67-71). */
  function EnterStates(m: States, tid: int): (m': States)
    ensures m'.Keys == m.Keys + {tid}
    ensures m'[tid] == Count(m, tid) + 1
    ensures forall t :: t in m && t != tid ==> m'[t] == m[t]
  {
    m[tid := Count(m, tid) + 1]
  }

  /** The new `states` after `__exit__` on thread `tid` (models.py:73-77). */
  function ExitStates(m: States, tid: int): (m': States)
    ensures tid in m' <==> Count(m, tid) != 1
    ensures tid in m' ==> m'[tid] == Count(m, tid) - 1
    ensures forall t :: t != tid ==> (t in m' <==> t in m)
    ensures forall t :: t in m && t != tid ==> m'[t] == m[t]
  {
    var c := Count(m, tid) - 1;
    if c == 0 then m - {tid} else m[tid := c]
  }

  lemma EnterKeepsPositive(m: States, tid: int)
    requires AllPositive(m)
    ensures AllPositive(EnterStates(m, tid))
  {
  }

  /** Exit keeps every counter positive provided the thread had entered. */
  lemma ExitKeepsPositive(m: States, tid: int)
    requires AllPositive(m)
    requires tid in m
    ensures AllPositive(ExitStates(m, tid))
  {
  }

  /** Entering and then exiting on one thread restores the whole map. */
  lemma EnterExitRestores(m: States, tid: int)
    requires AllPositive(m)
    ensures ExitStates(EnterStates(m, tid), tid) == m
  {
    var m' := ExitStates(EnterStates(m, tid), tid);
    assert m'.Keys == m.Keys;
  }

  /** `k` nested entries of thread `tid`. */
  function EnterTimes(m: States, tid: int, k: nat): States
  {
    if k == 0 then m else EnterStates(EnterTimes(m, tid, k - 1), tid)
  }

  /** `k` exits of thread `tid`. */
  function ExitTimes(m: States, tid: int, k: nat): States
    decreases k
  {
    if k == 0 then m else ExitTimes(ExitStates(m, tid), tid, k - 1)
  }

  /** After `k` nested entries the thread's depth has grown by `k` and no other thread changed. */
  lemma {:induction false} EnterTimesDepth(m: States, tid: int, k: nat)
    requires AllPositive(m)
    ensures AllPositive(EnterTimes(m, tid, k))
    ensures Count(EnterTimes(m, tid, k), tid) == Count(m, tid) + k
    ensures k > 0 ==> tid in EnterTimes(m, tid, k)
    ensures forall t :: t != tid ==> Count(EnterTimes(m, tid, k), t) == Count(m, t)
  {
    if k > 0 {
      EnterTimesDepth(m, tid, k - 1);
      EnterKeepsPositive(EnterTimes(m, tid, k - 1), tid);
    }
  }

  /** Properly nested use: `k` entries followed by `k` exits restore the map. */
  lemma {:induction false} NestedUseRestores(m: States, tid: int, k: nat)
    requires AllPositive(m)
    ensures ExitTimes(EnterTimes(m, tid, k), tid, k) == m
  {
    if k > 0 {
      var inner := EnterTimes(m, tid, k - 1);
      EnterTimesDepth(m, tid, k - 1);
      EnterExitRestores(inner, tid);
      assert ExitStates(EnterTimes(m, tid, k), tid) == inner;
      NestedUseRestores(m, tid, k - 1);
    }
  }

  class ThreadGate {
    var states: States

    constructor ()
      ensures states == map[]
    {
      states := map[];
    }

    /** `__enter__`: reports whether thread `tid` was already inside (models.py:67-71). */
    method Enter(tid: int) returns (alreadyInGate: bool)
      modifies this
      ensures alreadyInGate <==> tid in old(states)
      ensures states == EnterStates(old(states), tid)
    {
      alreadyInGate := tid in states;
      states := states[tid := Count(states, tid) + 1];
    }

    /**
     * `__exit__` (models.py:73-77).  For a thread that never entered, the
     * `defaultdict` yields 0, so the counter is stored as -1, as in the source.
     */
    method Exit(tid: int)
      modifies this
      ensures states == ExitStates(old(states), tid)
    {
      var c := Count(states, tid) - 1;
      states := states[tid := c];
      if c == 0 {
        states := states - {tid};
      }
    }
  }

  /**
   * The guard pattern of the many-to-many change handlers (models.py:227-241,
   * 252-278): `with gate as already_in_gate: if already_in_gate: return`.
   * The handler's mirrored write fires the opposite store's notification,
   * which runs a handler guarded by the same gate on the same thread; `echoes`
   * bounds how often that repeats.  Only the outermost call writes, and the
   * gate is left as it was found.
   */
  method HandleGuarded(gate: ThreadGate, tid: int, echoes: nat) returns (writes: nat)
    requires AllPositive(gate.states)
    modifies gate
    decreases echoes
    ensures gate.states == old(gate.states)
    ensures writes == if tid in old(gate.states) then 0 else 1
  {
    ghost var before := gate.states;
    var alreadyInGate := gate.Enter(tid);
    writes := 0;
    if !alreadyInGate {
      writes := 1;
      if echoes > 0 {
        EnterKeepsPositive(before, tid);
        var echoed := HandleGuarded(gate, tid, echoes - 1);
        writes := writes + echoed;
      }
    }
    EnterExitRestores(before, tid);
    gate.Exit(tid);
  }
}
