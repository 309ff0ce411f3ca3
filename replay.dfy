/**
 * The prioritised experience-replay buffer and batch unpacking of the learning code
 * (lib/mllib/common.py), without the sampling and the network parts.
 */
module Replay {
  import opened Wrappers
  import Protocol

  /** One transition, `Experience(state, action, reward, next_state, done)`; a terminal step has no next state. */
  datatype Experience = Experience(state: seq<real>, action: int, reward: real, nextState: Option<seq<real>>, done: bool)

  /**
   * The buffer's state as a value: the slots (None is a slot appended but not yet written), the
   * priority array, the write position, the capacity and the priority cap.
   */
  datatype Ring = Ring(buffer: seq<Option<Experience>>, priorities: seq<real>, position: int, capacity: nat, maxPriority: real)

  /** What a buffer built and used only through its methods satisfies. */
  ghost predicate WellFormed(r: Ring) {
    && |r.priorities| == r.capacity
    && |r.buffer| <= r.capacity
    && (if r.capacity == 0 then r.position == 0 else 0 <= r.position < r.capacity)
    && (|r.buffer| < r.capacity ==> r.position == |r.buffer|)
    && (forall j :: 0 <= j < |r.buffer| ==> r.buffer[j].Some?)
  }

  /** `PriorityBuffer(capacity, alpha, max_priority)`: no slots, all priorities zero, writing at slot 0. */
  function Empty(capacity: nat, maxPriority: real): (r: Ring)
    ensures WellFormed(r)
  {
    Ring([], seq(capacity, _ => 0.0), 0, capacity, maxPriority)
  }

  /** The priority `push` stores: the given one, or `max_priority` when none is given. */
  function Resolve(priority: Option<real>, maxPriority: real): real {
    match priority case Some(p) => p case None => maxPriority
  }

  /**
   * `push(experience, priority)`: grow by one slot while below capacity, write the experience and
   * its priority at the position, advance the position around the ring. With capacity zero the
   * slot assignment raises IndexError and nothing changes.
   */
  function Pushed(r: Ring, e: Experience, priority: Option<real>): (Ring, Result<(), Protocol.Fault>)
    requires WellFormed(r)
  {
    var slots := if |r.buffer| < r.capacity then r.buffer + [None] else r.buffer;
    if r.position >= |slots| then (r, Failure(Protocol.IndexError))
    else
      (r.(buffer := slots[r.position := Some(e)],
          priorities := r.priorities[r.position := Resolve(priority, r.maxPriority)],
          position := (r.position + 1) % r.capacity),
       Success(()))
  }

  /**
   * `push` keeps the buffer well formed; it fails exactly when the capacity is zero. Otherwise it
   * writes the experience and its priority at the old position and nowhere else, grows the buffer
   * by one only while below capacity, and advances the position modulo the capacity.
   */
  lemma PushEffect(r: Ring, e: Experience, priority: Option<real>)
    requires WellFormed(r)
    ensures WellFormed(Pushed(r, e, priority).0)
    ensures Pushed(r, e, priority).1.Failure? <==> r.capacity == 0
    ensures Pushed(r, e, priority).1.Failure? ==> Pushed(r, e, priority).0 == r
    ensures Pushed(r, e, priority).1.Success? ==> Stored(r, Pushed(r, e, priority).0, e, Resolve(priority, r.maxPriority))
  {
    if r.capacity > 0 {
      var slots := if |r.buffer| < r.capacity then r.buffer + [None] else r.buffer;
      WriteStores(r, slots, e, Resolve(priority, r.maxPriority));
    }
  }

  /** Writing an experience and its priority at the position, growing the buffer while below capacity. */
  lemma WriteStores(r: Ring, slots: seq<Option<Experience>>, e: Experience, p: real)
    requires WellFormed(r) && r.capacity > 0
    requires slots == if |r.buffer| < r.capacity then r.buffer + [None] else r.buffer
    ensures r.position < |slots|
    ensures var n := r.(buffer := slots[r.position := Some(e)], priorities := r.priorities[r.position := p],
                        position := (r.position + 1) % r.capacity);
      WellFormed(n) && Stored(r, n, e, p)
  {
    SlotsWritten(r.buffer, slots, r.position, e, slots[r.position := Some(e)]);
  }

  /** Writing a slot of a buffer grown by at most one unwritten slot leaves every slot written. */
  lemma SlotsWritten(buffer: seq<Option<Experience>>, slots: seq<Option<Experience>>, position: int, e: Experience, written: seq<Option<Experience>>)
    requires forall j :: 0 <= j < |buffer| ==> buffer[j].Some?
    requires slots == buffer || (slots == buffer + [None] && position == |buffer|)
    requires 0 <= position < |slots| && written == slots[position := Some(e)]
    ensures forall j :: 0 <= j < |written| ==> written[j].Some?
    ensures forall j :: 0 <= j < |buffer| && j != position ==> written[j] == buffer[j]
  {
  }

  /** `n` is `r` with `e` and priority `p` written at `r`'s position, the buffer grown while below capacity, the position advanced. */
  ghost predicate Stored(r: Ring, n: Ring, e: Experience, p: real)
    requires r.capacity > 0
  {
    && |n.buffer| == (if |r.buffer| < r.capacity then |r.buffer| + 1 else r.capacity)
    && |r.buffer| <= |n.buffer| && 0 <= r.position < |n.buffer|
    && |n.priorities| == |r.priorities| && r.position < |r.priorities|
    && n.buffer[r.position] == Some(e)
    && n.priorities[r.position] == p
    && (forall j :: 0 <= j < |r.buffer| && j != r.position ==> n.buffer[j] == r.buffer[j])
    && (forall j :: 0 <= j < |r.priorities| && j != r.position ==> n.priorities[j] == r.priorities[j])
    && n.position == (r.position + 1) % r.capacity
    && n.capacity == r.capacity && n.maxPriority == r.maxPriority
  }

  /** Pushing a sequence of experiences with their default priority, one after the other. */
  function PushAll(r: Ring, xs: seq<Experience>): (n: Ring)
    requires WellFormed(r)
    ensures WellFormed(n) && n.capacity == r.capacity && n.maxPriority == r.maxPriority
    decreases |xs|
  {
    if xs == [] then r
    else
      var m := PushAll(r, xs[..|xs| - 1]);
      PushEffect(m, xs[|xs| - 1], None);
      Pushed(m, xs[|xs| - 1], None).0
  }

  /** A multiple of a positive number strictly between its negative and itself is zero. */
  lemma SmallMultiple(c: int, d: int)
    requires c > 0 && -c < c * d < c
    ensures d == 0
  {
  }

  /** Division with remainder is unique. */
  lemma ModUnique(a: int, c: int, q: int, r: int)
    requires c > 0 && 0 <= r < c && a == c * q + r
    ensures a % c == r
  {
    assert c * (q - a / c) == a % c - r;
    SmallMultiple(c, q - a / c);
  }

  /** Two distinct positions less than a capacity apart land on distinct slots. */
  lemma SlotsDistinct(k: int, n: int, capacity: int)
    requires 0 <= k < n < k + capacity
    ensures k % capacity != n % capacity
  {
    if k % capacity == n % capacity {
      assert n - k == capacity * (n / capacity - k / capacity);
      SmallMultiple(capacity, n / capacity - k / capacity);
    }
  }

  /** Advancing a position already reduced modulo the capacity. */
  lemma NextSlot(n: nat, capacity: nat)
    requires capacity > 0
    ensures (n % capacity + 1) % capacity == (n + 1) % capacity
  {
    var q := n / capacity;
    var r := n % capacity;
    if r + 1 < capacity {
      ModUnique(n + 1, capacity, q, r + 1);
      ModUnique(r + 1, capacity, 0, r + 1);
    } else {
      ModUnique(n + 1, capacity, q + 1, 0);
    }
  }

  /**
   * The buffer holds the last `capacity` of the experiences `xs`, the `k`-th of them in slot
   * `k mod capacity` with the default priority, and writes next at `|xs| mod capacity`.
   */
  ghost predicate Window(r: Ring, xs: seq<Experience>)
    requires r.capacity > 0
  {
    && |r.buffer| == (if |xs| < r.capacity then |xs| else r.capacity)
    && |r.priorities| == r.capacity
    && r.position == |xs| % r.capacity
    && forall k :: 0 <= k < |xs| && |xs| - r.capacity <= k ==>
         k % r.capacity < |r.buffer| && r.buffer[k % r.capacity] == Some(xs[k]) && r.priorities[k % r.capacity] == r.maxPriority
  }

  /** After any run of pushes into an empty buffer of positive capacity, the buffer is the window of the most recent experiences. */
  lemma {:induction false} KeepsMostRecent(capacity: nat, maxPriority: real, xs: seq<Experience>)
    requires capacity > 0
    ensures Window(PushAll(Empty(capacity, maxPriority), xs), xs)
    decreases |xs|
  {
    if xs != [] {
      var n := |xs| - 1;
      KeepsMostRecent(capacity, maxPriority, xs[..n]);
      var m := PushAll(Empty(capacity, maxPriority), xs[..n]);
      WindowStep(m, xs[..n], xs[n]);
      assert xs[..n] + [xs[n]] == xs;
    }
  }

  /** The inductive step: one more push writes the newest experience over the oldest one's slot. */
  lemma WindowStep(m: Ring, ys: seq<Experience>, e: Experience)
    requires m.capacity > 0 && WellFormed(m) && Window(m, ys)
    ensures Window(Pushed(m, e, None).0, ys + [e])
  {
    var n := |ys|;
    var xs := ys + [e];
    PushEffect(m, e, None);
    var r := Pushed(m, e, None).0;
    NextSlot(n, m.capacity);
    forall k | 0 <= k < |xs| && |xs| - r.capacity <= k
      ensures k % r.capacity < |r.buffer| && r.buffer[k % r.capacity] == Some(xs[k]) && r.priorities[k % r.capacity] == r.maxPriority
    {
      if k < n {
        SlotsDistinct(k, n, m.capacity);
        assert xs[k] == ys[k];
      }
    }
  }

  /** numpy's indexing of a one-dimensional array: negative indices count from the end. */
  function ArraySlot(idx: int, length: nat): Option<nat> {
    if 0 <= idx < length then Some(idx)
    else if -(length as int) <= idx < 0 then Some(idx + length)
    else None
  }

  /** Python's `min(max_priority, prio)`. */
  function Cap(maxPriority: real, prio: real): (p: real)
    ensures p <= maxPriority && p <= prio && (p == maxPriority || p == prio)
  {
    if prio < maxPriority then prio else maxPriority
  }

  /**
   * The loop of `update_priorities` over the zipped pairs, from a given priority array: each pair
   * writes its capped priority; an index outside the array raises IndexError, the earlier writes kept.
   */
  function Update(q: seq<real>, maxPriority: real, pairs: seq<(int, real)>): (r: (seq<real>, Result<(), Protocol.Fault>))
    ensures |r.0| == |q|
    decreases |pairs|
  {
    if pairs == [] then (q, Success(()))
    else match ArraySlot(pairs[0].0, |q|)
      case None => (q, Failure(Protocol.IndexError))
      case Some(j) => Update(q[j := Cap(maxPriority, pairs[0].1)], maxPriority, pairs[1..])
  }

  /** The last pair in the list that writes slot `j`, found independently of the loop. */
  function LastFor(pairs: seq<(int, real)>, length: nat, j: nat): Option<real>
    decreases |pairs|
  {
    if pairs == [] then None
    else match LastFor(pairs[1..], length, j)
      case Some(p) => Some(p)
      case None => if ArraySlot(pairs[0].0, length) == Some(j) then Some(pairs[0].1) else None
  }

  /** What slot `j` holds after the update by that reading: the last writer's capped priority, else the old one. */
  function Written(q: seq<real>, maxPriority: real, pairs: seq<(int, real)>, j: nat): real
    requires j < |q|
  {
    match LastFor(pairs, |q|, j) case Some(p) => Cap(maxPriority, p) case None => q[j]
  }

  /**
   * The update succeeds exactly when every index is in range, never changes the length, and
   * then each slot holds the capped priority of the last pair naming it, or its old priority when
   * no pair does.
   */
  lemma {:induction false} UpdateMatchesLastWriter(q: seq<real>, maxPriority: real, pairs: seq<(int, real)>)
    ensures Update(q, maxPriority, pairs).1.Success? <==> forall i :: 0 <= i < |pairs| ==> ArraySlot(pairs[i].0, |q|).Some?
    ensures Update(q, maxPriority, pairs).1.Success? ==>
      forall j :: 0 <= j < |q| ==> Update(q, maxPriority, pairs).0[j] == Written(q, maxPriority, pairs, j)
    decreases |pairs|
  {
    if pairs != [] {
      match ArraySlot(pairs[0].0, |q|)
      case None =>
      case Some(s) =>
        var q' := q[s := Cap(maxPriority, pairs[0].1)];
        UpdateMatchesLastWriter(q', maxPriority, pairs[1..]);
        var res := Update(q, maxPriority, pairs).1;
        if res.Success? {
          forall i | 0 <= i < |pairs| ensures ArraySlot(pairs[i].0, |q|).Some? {
            if i > 0 { assert pairs[i] == pairs[1..][i - 1]; }
          }
        } else {
          var i :| 0 <= i < |pairs[1..]| && ArraySlot(pairs[1..][i].0, |q|).None?;
          assert pairs[i + 1] == pairs[1..][i];
        }
    }
  }

  /** A later pair for the same slot overrides an earlier one. */
  lemma LaterDuplicateWins(q: seq<real>, maxPriority: real, pairs: seq<(int, real)>, idx: int, prio: real)
    requires ArraySlot(idx, |q|).Some?
    requires Update(q, maxPriority, pairs + [(idx, prio)]).1.Success?
    ensures Update(q, maxPriority, pairs + [(idx, prio)]).0[ArraySlot(idx, |q|).value] == Cap(maxPriority, prio)
  {
    LastForLast(pairs, |q|, idx, prio);
    UpdateAt(q, maxPriority, pairs + [(idx, prio)], ArraySlot(idx, |q|).value);
  }

  lemma UpdateAt(q: seq<real>, maxPriority: real, all: seq<(int, real)>, j: nat)
    requires j < |q| && Update(q, maxPriority, all).1.Success?
    ensures Update(q, maxPriority, all).0[j] == Written(q, maxPriority, all, j)
  {
    UpdateMatchesLastWriter(q, maxPriority, all);
  }

  lemma {:induction false} LastForLast(pairs: seq<(int, real)>, length: nat, idx: int, prio: real)
    requires ArraySlot(idx, length).Some?
    ensures LastFor(pairs + [(idx, prio)], length, ArraySlot(idx, length).value) == Some(prio)
    decreases |pairs|
  {
    if pairs != [] {
      assert (pairs + [(idx, prio)])[1..] == pairs[1..] + [(idx, prio)];
      LastForLast(pairs[1..], length, idx, prio);
    } else {
      assert ([] + [(idx, prio)])[1..] == [];
    }
  }

  /** The buffer object of the training loop. */
  class PriorityBuffer {
    const capacity: nat
    const alpha: real
    const maxPriority: real
    const priorities: array<real>
    var buffer: seq<Option<Experience>>
    var position: int

    ghost function View(): Ring
      reads this, priorities
    {
      Ring(buffer, priorities[..], position, capacity, maxPriority)
    }

    ghost predicate Valid()
      reads this, priorities
    {
      WellFormed(View())
    }

    constructor (capacity: nat, alpha: real, maxPriority: real)
      ensures Valid() && View() == Empty(capacity, maxPriority) && this.alpha == alpha
      ensures fresh(priorities)
    {
      this.capacity := capacity;
      this.alpha := alpha;
      this.maxPriority := maxPriority;
      priorities := new real[capacity](_ => 0.0);
      buffer := [];
      position := 0;
      new;
      assert priorities[..] == seq(capacity, _ => 0.0);
    }

    /** `len(buffer)`. */
    function Length(): (n: nat)
      reads this
      ensures n == |buffer|
    {
      |buffer|
    }

    method Push(e: Experience, priority: Option<real>) returns (r: Result<(), Protocol.Fault>)
      requires Valid()
      modifies this, priorities
      ensures Valid() && (View(), r) == Pushed(old(View()), e, priority)
    {
      PushEffect(View(), e, priority);
      if |buffer| < capacity {
        buffer := buffer + [None];
      }
      if position >= |buffer| {
        return Failure(Protocol.IndexError);
      }
      buffer := buffer[position := Some(e)];
      priorities[position] := Resolve(priority, maxPriority);
      position := (position + 1) % capacity;
      r := Success(());
    }

    method UpdatePriorities(indices: seq<int>, values: seq<real>) returns (r: Result<(), Protocol.Fault>)
      requires Valid()
      modifies priorities
      ensures Valid()
      ensures (priorities[..], r) == Update(old(priorities[..]), maxPriority, Protocol.Zip(indices, values))
    {
      var pairs := Protocol.Zip(indices, values);
      var i := 0;
      while i < |pairs|
        invariant 0 <= i <= |pairs| && priorities.Length == capacity
        invariant Update(old(priorities[..]), maxPriority, pairs) == Update(priorities[..], maxPriority, pairs[i..])
      {
        var idx := pairs[i].0;
        var slot: int;
        if 0 <= idx < priorities.Length {
          slot := idx;
        } else if -priorities.Length <= idx < 0 {
          slot := idx + priorities.Length;
        } else {
          return Failure(Protocol.IndexError);
        }
        assert pairs[i..][1..] == pairs[i + 1..];
        priorities[slot] := Cap(maxPriority, pairs[i].1);
        i := i + 1;
      }
      r := Success(());
    }
  }

  /** The five columns `unpack_batch` returns: states, actions, rewards, dones as 0/1, next states. */
  method UnpackBatch(batch: seq<Experience>)
    returns (states: seq<seq<real>>, actions: seq<int>, rewards: seq<real>, dones: seq<int>, nextStates: seq<seq<real>>)
    ensures |states| == |actions| == |rewards| == |dones| == |nextStates| == |batch|
    ensures forall i :: 0 <= i < |batch| ==>
      && states[i] == batch[i].state && actions[i] == batch[i].action && rewards[i] == batch[i].reward
      && (dones[i] == 1 <==> batch[i].nextState.None?) && 0 <= dones[i] <= 1
      && nextStates[i] == (if batch[i].nextState.None? then batch[i].state else batch[i].nextState.value)
  {
    states, actions, rewards, dones, nextStates := [], [], [], [], [];
    for k := 0 to |batch|
      invariant |states| == |actions| == |rewards| == |dones| == |nextStates| == k
      invariant forall i :: 0 <= i < k ==>
        && states[i] == batch[i].state && actions[i] == batch[i].action && rewards[i] == batch[i].reward
        && (dones[i] == 1 <==> batch[i].nextState.None?) && 0 <= dones[i] <= 1
        && nextStates[i] == (if batch[i].nextState.None? then batch[i].state else batch[i].nextState.value)
    {
      var exp := batch[k];
      var state := exp.state;
      states := states + [state];
      actions := actions + [exp.action];
      rewards := rewards + [exp.reward];
      dones := dones + [if exp.nextState.None? then 1 else 0];
      if exp.nextState.None? {
        nextStates := nextStates + [state];
      } else {
        nextStates := nextStates + [exp.nextState.value];
      }
    }
  }
}
