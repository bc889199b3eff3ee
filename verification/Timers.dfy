/** The timer table: slots handed out to operations, counted down by ticks. */
module Timers {

  const UINT_MAX := 0xFFFF_FFFF
  const UINT64_MAX := 0xFFFF_FFFF_FFFF_FFFF

  /** What to call when a timer expires. */
  datatype Callback = None | Call(id: nat)

  datatype Timer = Timer(timeoutMs: nat, callback: Callback, taken: bool, suspended: bool)

  const FREE := Timer(0, None, false, false)

  predicate Active(t: Timer) {
    t.taken && t.callback.Call? && !t.suspended
  }

  predicate Expires(t: Timer, ms: nat) {
    Active(t) && t.timeoutMs <= ms
  }

  // ----- ticking, as functions of the table

  function Ticked(t: Timer, ms: nat): Timer {
    if Expires(t, ms) then t.(timeoutMs := 0, callback := None)
    else if Active(t) then t.(timeoutMs := t.timeoutMs - ms)
    else t
  }

  function TickAll(ts: seq<Timer>, ms: nat): (r: seq<Timer>)
    ensures |r| == |ts|
    ensures forall i :: 0 <= i < |r| ==> r[i] == Ticked(ts[i], ms)
  {
    seq(|ts|, i requires 0 <= i < |ts| => Ticked(ts[i], ms))
  }

  /** The callbacks to make, in slot order. */
  function Fired(ts: seq<Timer>, ms: nat): seq<nat> {
    if ts == [] then [] else
      var t := ts[|ts| - 1];
      if Expires(t, ms) then Fired(ts[..|ts| - 1], ms) + [t.callback.id] else Fired(ts[..|ts| - 1], ms)
  }

  /** Ticking by `a` and then `b` leaves the same table as ticking by `a + b` and
      makes the same callbacks. */
  lemma {:induction false} TickSplits(ts: seq<Timer>, a: nat, b: nat)
    ensures TickAll(TickAll(ts, a), b) == TickAll(ts, a + b)
    ensures multiset(Fired(ts, a) + Fired(TickAll(ts, a), b)) == multiset(Fired(ts, a + b))
  {
    if ts != [] {
      var n := |ts| - 1;
      TickSplits(ts[..n], a, b);
      assert TickAll(ts, a)[..n] == TickAll(ts[..n], a);
    }
  }

  lemma {:induction false} NothingFires(ts: seq<Timer>, ms: nat)
    ensures Fired(ts, ms) == [] <==> forall i :: 0 <= i < |ts| ==> !Expires(ts[i], ms)
  {
    if ts != [] {
      var n := |ts| - 1;
      NothingFires(ts[..n], ms);
      assert forall i :: 0 <= i < n ==> ts[..n][i] == ts[i];
    }
  }

  lemma {:induction false} FiredHas(ts: seq<Timer>, i: nat, ms: nat)
    requires i < |ts| && Expires(ts[i], ms)
    ensures ts[i].callback.id in Fired(ts, ms)
  {
    var n := |ts| - 1;
    if i < n {
      FiredHas(ts[..n], i, ms);
    }
  }

  lemma {:induction false} FiredWithout(ts: seq<Timer>, i: nat, t: Timer, ms: nat)
    requires i < |ts| && !Expires(ts[i], ms) && !Expires(t, ms)
    ensures Fired(ts[i := t], ms) == Fired(ts, ms)
  {
    var n := |ts| - 1;
    if i < n {
      FiredWithout(ts[..n], i, t, ms);
      assert ts[i := t][..n] == ts[..n][i := t];
    } else {
      assert ts[i := t][..n] == ts[..n];
    }
  }

  /** A timer in use that is armed and not suspended calls back once its time is up
      and is disarmed then, and counts down before. */
  lemma ArmedTicks(ts: seq<Timer>, i: nat, ms: nat)
    requires i < |ts| && ts[i].taken && !ts[i].suspended && ts[i].callback.Call?
    ensures if ts[i].timeoutMs <= ms
            then ts[i].callback.id in Fired(ts, ms) && TickAll(ts, ms)[i].callback == None
            else TickAll(ts, ms)[i] == ts[i].(timeoutMs := ts[i].timeoutMs - ms)
  {
    if ts[i].timeoutMs <= ms {
      FiredHas(ts, i, ms);
    }
  }

  /** Any other keeps its time, and the callbacks are those made without it. */
  lemma SleepingKeeps(ts: seq<Timer>, i: nat, ms: nat)
    requires i < |ts| && (!ts[i].taken || ts[i].suspended || ts[i].callback.None?)
    ensures TickAll(ts, ms)[i] == ts[i]
    ensures Fired(ts, ms) == Fired(ts[i := FREE], ms)
    ensures forall w: nat :: NotBefore(ts, w) <==> NotBefore(ts[i := FREE], w)
  {
    FiredWithout(ts, i, FREE, ms);
    forall w: nat ensures NotBefore(ts, w) <==> NotBefore(ts[i := FREE], w) {
      assert forall j :: 0 <= j < |ts| && j != i ==> ts[i := FREE][j] == ts[j];
    }
  }

  // ----- the next wait

  /** No active timer is due sooner than `w`. */
  ghost predicate NotBefore(ts: seq<Timer>, w: nat) {
    forall i :: 0 <= i < |ts| && Active(ts[i]) ==> w <= ts[i].timeoutMs
  }

  ghost predicate SomeDueAt(ts: seq<Timer>, w: nat) {
    exists i :: 0 <= i < |ts| && Active(ts[i]) && ts[i].timeoutMs == w
  }

  /** A tick shorter than an announced wait makes no callback; a tick of exactly
      the wait makes one, provided the wait was not cut to what `unsigned` holds. */
  lemma WaitIsTight(ts: seq<Timer>, w: nat, ms: nat)
    requires w > 0 && NotBefore(ts, w)
    ensures ms < w ==> Fired(ts, ms) == []
    ensures SomeDueAt(ts, w) ==> Fired(ts, w) != []
  {
    NothingFires(ts, ms);
    NothingFires(ts, w);
  }

  // ----- allocation

  function Count(ts: seq<Timer>): (n: nat)
    ensures n <= |ts|
  {
    if ts == [] then 0 else Count(ts[..|ts| - 1]) + if ts[|ts| - 1].taken then 1 else 0
  }

  lemma {:induction false} CountUpdate(ts: seq<Timer>, i: nat, t: Timer)
    requires i < |ts|
    ensures Count(ts[i := t]) == Count(ts) - (if ts[i].taken then 1 else 0) + (if t.taken then 1 else 0)
    decreases |ts|
  {
    var n := |ts| - 1;
    if i < n {
      CountUpdate(ts[..n], i, t);
      assert ts[i := t][..n] == ts[..n][i := t];
    } else {
      assert ts[i := t][..n] == ts[..n];
    }
  }

  lemma {:induction false} CountFull(ts: seq<Timer>)
    ensures Count(ts) == |ts| <==> forall i :: 0 <= i < |ts| ==> ts[i].taken
  {
    if ts != [] {
      var n := |ts| - 1;
      CountFull(ts[..n]);
      assert forall i :: 0 <= i < n ==> ts[..n][i] == ts[i];
    }
  }

  function Allotted(ts: seq<Timer>, idx: nat): seq<Timer>
    requires idx <= |ts|
  {
    if idx < |ts| then ts[idx := ts[idx].(taken := true)] else ts + [FREE.(taken := true)]
  }

  class TimerMgr {
    var timers: seq<Timer>
    var allocatedTimers: nat
    const maxTimers: nat

    /** The counter counts the allocated slots; free ones are blank. */
    ghost predicate Valid()
      reads this
    {
      && allocatedTimers == Count(timers)
      && (forall i :: 0 <= i < |timers| && !timers[i].taken ==> timers[i] == FREE)
    }

    constructor (maxTimers: nat)
      ensures Valid() && timers == [] && this.maxTimers == maxTimers
    {
      this.maxTimers := maxTimers;
      timers, allocatedTimers := [], 0;
    }

    /** Hands out the first free slot, growing the table when there is none. No
        slot already handed out is given again. */
    method AllocTimer() returns (ok: bool, idx: nat)
      requires Valid()
      modifies this
      ensures Valid()
      ensures ok <==> old(allocatedTimers) < |old(timers)| || |old(timers)| < maxTimers
      ensures allocatedTimers == old(allocatedTimers) + if ok then 1 else 0
      ensures !ok ==> timers == old(timers)
      ensures ok ==> && idx <= |old(timers)|
                     && (idx < |old(timers)| ==> !old(timers)[idx].taken)
                     && (forall j :: 0 <= j < idx ==> old(timers)[j].taken)
                     && timers == Allotted(old(timers), idx)
    {
      CountFull(timers);
      if allocatedTimers < |timers| {
        var i := 0;
        while i < |timers|
          invariant 0 <= i <= |timers| && timers == old(timers) && allocatedTimers == old(allocatedTimers)
          invariant forall j :: 0 <= j < i ==> timers[j].taken
        {
          if !timers[i].taken {
            CreateTimer(i);
            return true, i;
          }
          i := i + 1;
        }
        assert false; // the library's "Should_not_happen" branch
      }
      if maxTimers <= |timers| {
        return false, 0;
      }
      idx := |timers|;
      assert (timers + [FREE])[..idx] == timers;
      timers := timers + [FREE];
      CreateTimer(idx);
      return true, idx;
    }

    method CreateTimer(idx: nat)
      requires Valid() && idx < |timers| && !timers[idx].taken
      modifies this
      ensures Valid() && allocatedTimers == old(allocatedTimers) + 1
      ensures timers == old(timers)[idx := old(timers)[idx].(taken := true)]
    {
      var t := timers[idx].(taken := true);
      CountUpdate(timers, idx, t);
      timers := timers[idx := t];
      allocatedTimers := allocatedTimers + 1;
    }

    method FreeTimer(idx: nat)
      requires Valid() && (idx < |timers| ==> timers[idx].taken)
      modifies this
      ensures Valid()
      ensures timers == if idx < |old(timers)| then old(timers)[idx := FREE] else old(timers)
    {
      if |timers| <= idx {
        return;
      }
      CountUpdate(timers, idx, FREE);
      timers := timers[idx := FREE];
      allocatedTimers := allocatedTimers - 1;
    }

    method TimerWait(idx: nat, timeoutMs: nat, id: nat)
      requires Valid() && (idx < |timers| ==> timers[idx].taken)
      modifies this
      ensures Valid()
      ensures timers == if idx < |old(timers)|
                        then old(timers)[idx := old(timers)[idx].(timeoutMs := timeoutMs, callback := Call(id))]
                        else old(timers)
    {
      if |timers| <= idx {
        return;
      }
      var t := timers[idx].(timeoutMs := timeoutMs, callback := Call(id));
      CountUpdate(timers, idx, t);
      timers := timers[idx := t];
    }

    method TimerCancel(idx: nat)
      requires Valid() && (idx < |timers| ==> timers[idx].taken)
      modifies this
      ensures Valid()
      ensures timers == if idx < |old(timers)|
                        then old(timers)[idx := old(timers)[idx].(timeoutMs := 0, callback := None)]
                        else old(timers)
    {
      if |timers| <= idx {
        return;
      }
      var t := timers[idx].(timeoutMs := 0, callback := None);
      CountUpdate(timers, idx, t);
      timers := timers[idx := t];
    }

    /** Counts every active timer down; returns the callbacks of those that expired. */
    method Tick(ms: nat) returns (calls: seq<nat>)
      requires Valid()
      modifies this
      ensures Valid()
      ensures timers == TickAll(old(timers), ms)
      ensures calls == Fired(old(timers), ms)
    {
      calls := [];
      ghost var ts := timers;
      var idx := 0;
      while idx < |timers|
        invariant 0 <= idx <= |timers| == |ts| && Valid()
        invariant forall j :: 0 <= j < idx ==> timers[j] == Ticked(ts[j], ms)
        invariant forall j :: idx <= j < |ts| ==> timers[j] == ts[j]
        invariant calls == Fired(ts[..idx], ms)
        decreases |ts| - idx
      {
        assert ts[..idx + 1][..idx] == ts[..idx];
        var t := timers[idx];
        if !t.taken || t.callback.None? || t.suspended {
          idx := idx + 1;
          continue;
        }
        if t.timeoutMs <= ms {
          calls := calls + [t.callback.id];
          TimerCancel(idx);
          idx := idx + 1;
          continue;
        }
        CountUpdate(timers, idx, t.(timeoutMs := t.timeoutMs - ms));
        timers := timers[idx := t.(timeoutMs := t.timeoutMs - ms)];
        idx := idx + 1;
      }
      assert ts[..|ts|] == ts;
    }

    /** How long the application may wait before the next tick; 0 for "no need". */
    method GetMinWait() returns (w: nat)
      requires Valid()
      ensures w <= UINT_MAX
      ensures w > 0 ==> NotBefore(timers, w)
      ensures 0 < w < UINT_MAX ==> SomeDueAt(timers, w)
      ensures w == 0 ==> SomeDueAt(timers, 0) || NotBefore(timers, UINT64_MAX)
    {
      if allocatedTimers == 0 {
        NoneAllocated(timers);
        return 0;
      }
      var result := UINT64_MAX;
      var i := 0;
      while i < |timers|
        invariant 0 <= i <= |timers|
        invariant result <= UINT64_MAX
        invariant forall j :: 0 <= j < i && Active(timers[j]) ==> result <= timers[j].timeoutMs
        invariant result < UINT64_MAX ==> exists j :: 0 <= j < i && Active(timers[j]) && timers[j].timeoutMs == result
      {
        if timers[i].taken && timers[i].callback.Call? && !timers[i].suspended {
          result := if timers[i].timeoutMs < result then timers[i].timeoutMs else result;
        }
        i := i + 1;
      }
      if result == UINT64_MAX {
        return 0;
      }
      return if result < UINT_MAX then result else UINT_MAX;
    }
  }

  lemma {:induction false} NoneAllocated(ts: seq<Timer>)
    requires Count(ts) == 0
    ensures forall i :: 0 <= i < |ts| ==> !ts[i].taken
  {
    if ts != [] {
      NoneAllocated(ts[..|ts| - 1]);
      assert forall i :: 0 <= i < |ts| - 1 ==> ts[..|ts| - 1][i] == ts[i];
    }
  }
}
