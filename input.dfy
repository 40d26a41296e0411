/** The key-event state machine of handleKeyEvents (src/main.c:53-71) on
    the two values it changes: the live seed count and the pause flag. */
module Input {
  import opened Seeds

  /** Which of the three handled keys were released this frame. */
  datatype Keys = Keys(space: bool, spawn: bool, remove: bool)

  const SPAWN_KEY := Keys(false, true, false)
  const REMOVE_KEY := Keys(false, false, true)

  /** The counters of State: seedCount and isPaused. */
  datatype Status = Status(seedCount: nat, isPaused: bool)

  /** Whether the event adds a seed: the pause flag after space is off, S
      was released and the arena has a free slot. */
  predicate Spawns(st: Status, k: Keys) {
    (st.isPaused == k.space) && k.spawn && st.seedCount < SEEDS_N_MAX
  }

  /** Space toggles the pause flag first; only when the resulting state is
      running are S (spawn, guarded by count < SEEDS_N_MAX) and then D
      (remove, guarded by count > 1) honoured. */
  function KeyStep(st: Status, k: Keys): (r: Status)
    ensures r.isPaused == (st.isPaused != k.space)
    ensures r.isPaused ==> r.seedCount == st.seedCount
    ensures 1 <= st.seedCount <= SEEDS_N_MAX ==> 1 <= r.seedCount <= SEEDS_N_MAX
    ensures st.seedCount - 1 <= r.seedCount <= st.seedCount + 1
  {
    var paused := if k.space then !st.isPaused else st.isPaused;
    if paused then Status(st.seedCount, paused)
    else
      var spawned := if k.spawn && st.seedCount < SEEDS_N_MAX then st.seedCount + 1 else st.seedCount;
      var removed := if k.remove && spawned > 1 then spawned - 1 else spawned;
      Status(removed, paused)
  }

  /** The count effect of one running event: spawn at the maximum and
      remove at one are no-ops, otherwise each adds or takes away exactly one,
      and when both fire in one frame the spawn comes first. */
  lemma KeyStepCount(st: Status, k: Keys)
    requires !KeyStep(st, k).isPaused
    requires 1 <= st.seedCount <= SEEDS_N_MAX
    ensures var n := KeyStep(st, k).seedCount;
      (k.spawn && !k.remove ==> n == if st.seedCount < SEEDS_N_MAX then st.seedCount + 1 else st.seedCount) &&
      (k.remove && !k.spawn ==> n == if st.seedCount > 1 then st.seedCount - 1 else st.seedCount) &&
      (k.spawn && k.remove ==> n == if st.seedCount < SEEDS_N_MAX then st.seedCount else st.seedCount - 1) &&
      (!k.spawn && !k.remove ==> n == st.seedCount)
  {
  }

  /** The counters after a sequence of frames' key events, oldest first. */
  function KeyRun(st: Status, ks: seq<Keys>): Status
    decreases |ks|
  {
    if ks == [] then st else KeyRun(KeyStep(st, ks[0]), ks[1..])
  }

  /** Running two event sequences one after the other is running their concatenation. */
  lemma {:induction false} KeyRunAppend(st: Status, a: seq<Keys>, b: seq<Keys>)
    ensures KeyRun(st, a + b) == KeyRun(KeyRun(st, a), b)
    decreases |a|
  {
    if a != [] {
      assert (a + b)[0] == a[0];
      assert (a + b)[1..] == a[1..] + b;
      KeyRunAppend(KeyStep(st, a[0]), a[1..], b);
    } else {
      assert a + b == b;
    }
  }

  /** 1 <= seedCount <= SEEDS_N_MAX holds after any sequence of key events. */
  lemma {:induction false} KeyRunKeepsBounds(st: Status, ks: seq<Keys>)
    requires 1 <= st.seedCount <= SEEDS_N_MAX
    ensures 1 <= KeyRun(st, ks).seedCount <= SEEDS_N_MAX
    decreases |ks|
  {
    if ks != [] {
      KeyRunKeepsBounds(KeyStep(st, ks[0]), ks[1..]);
    }
  }

  /** While paused, events without space change nothing. */
  lemma {:induction false} PausedRunFreezes(st: Status, ks: seq<Keys>)
    requires st.isPaused
    requires forall j :: 0 <= j < |ks| ==> !ks[j].space
    ensures KeyRun(st, ks) == st
    decreases |ks|
  {
    if ks != [] {
      PausedRunFreezes(KeyStep(st, ks[0]), ks[1..]);
    }
  }

  function Repeat(k: Keys, n: nat): (ks: seq<Keys>)
    ensures |ks| == n
  {
    if n == 0 then [] else [k] + Repeat(k, n - 1)
  }

  function Min(a: int, b: int): int { if a < b then a else b }
  function Max(a: int, b: int): int { if a < b then b else a }

  /** n presses of S while running saturate at SEEDS_N_MAX. */
  lemma {:induction false} SpawnRun(st: Status, n: nat)
    requires !st.isPaused && st.seedCount <= SEEDS_N_MAX
    ensures KeyRun(st, Repeat(SPAWN_KEY, n)) == Status(Min(st.seedCount + n, SEEDS_N_MAX), false)
    decreases n
  {
    if n > 0 {
      assert Repeat(SPAWN_KEY, n)[1..] == Repeat(SPAWN_KEY, n - 1);
      SpawnRun(KeyStep(st, SPAWN_KEY), n - 1);
    }
  }

  /** n presses of D while running saturate at one seed. */
  lemma {:induction false} RemoveRun(st: Status, n: nat)
    requires !st.isPaused && 1 <= st.seedCount
    ensures KeyRun(st, Repeat(REMOVE_KEY, n)) == Status(Max(st.seedCount - n, 1), false)
    decreases n
  {
    if n > 0 {
      assert Repeat(REMOVE_KEY, n)[1..] == Repeat(REMOVE_KEY, n - 1);
      RemoveRun(KeyStep(st, REMOVE_KEY), n - 1);
    }
  }

  /** From the start count, eight spawns fill the arena and nine removals
      then leave a single seed. */
  lemma FillThenDrain()
    ensures KeyRun(Status(SEEDS_N_START, false), Repeat(SPAWN_KEY, 8)) == Status(SEEDS_N_MAX, false)
    ensures KeyRun(Status(SEEDS_N_START, false), Repeat(SPAWN_KEY, 8) + Repeat(REMOVE_KEY, 9)) == Status(1, false)
  {
    SpawnRun(Status(SEEDS_N_START, false), 8);
    RemoveRun(Status(SEEDS_N_MAX, false), 9);
    KeyRunAppend(Status(SEEDS_N_START, false), Repeat(SPAWN_KEY, 8), Repeat(REMOVE_KEY, 9));
  }
}
