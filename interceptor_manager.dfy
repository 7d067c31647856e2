/**
 * `InterceptorManager` (request/core/interceptorManager.js): an array of
 * interceptor slots that `use` appends to, `eject` nulls out in place and
 * `forEach` walks, skipping the nulled slots.
 */
module Interceptors {
  import opened JsValues

  /** The `{ resolved, rejected }` pair `use` stores; both are opaque callbacks. */
  datatype Interceptor = Interceptor(resolved: Value, rejected: Value)

  /**
   * One element of the `interceptors` array: a `Hole` (an index never written,
   * left when `eject` writes past the end), `Ejected` (the null `eject`
   * writes) or a `Live` interceptor.
   */
  datatype Slot = Hole | Ejected | Live(interceptor: Interceptor)

  /** The bound on array indices: a JavaScript array index is an integer in `[0, 2^32 - 1)`. */
  const ArrayIndexLimit: int := 0xFFFF_FFFF

  /** Whether writing `interceptors[id]` writes an element of the array rather than a plain property. */
  predicate IsArrayIndex(id: int)
  {
    0 <= id < ArrayIndexLimit
  }

  /**
   * The array after `interceptors[id] = null`: in range, one slot changes;
   * past the end, the array grows. Any other id (negative, or 2^32 - 1 and
   * above) names a plain property, which neither `length` nor `forEach` sees.
   */
  function EjectedAt(slots: seq<Slot>, id: int): (r: seq<Slot>)
    ensures |r| >= |slots|
    ensures IsArrayIndex(id) ==> |r| == if id < |slots| then |slots| else id + 1
    ensures IsArrayIndex(id) ==> r[id] == Ejected
    ensures !IsArrayIndex(id) ==> r == slots
  {
    if !IsArrayIndex(id) then slots
    else if id < |slots| then slots[id := Ejected]
    else slots + Holes(id - |slots|) + [Ejected]
  }

  /** `eject` touches slot `id` only: every other index keeps its slot, and indices it skips over are holes. */
  lemma EjectOthersUnchanged(slots: seq<Slot>, id: int, j: nat)
    requires j != id && j < |EjectedAt(slots, id)|
    ensures j < |slots| ==> EjectedAt(slots, id)[j] == slots[j]
    ensures j >= |slots| ==> EjectedAt(slots, id)[j] == Hole
  {
  }

  /** The indices a write past the end of an array skips over. */
  function Holes(n: nat): (r: seq<Slot>)
    ensures |r| == n && forall i :: 0 <= i < n ==> r[i] == Hole
  {
    if n == 0 then [] else Holes(n - 1) + [Hole]
  }

  /** The interceptors `forEach` hands to its callback, in array order. */
  function LiveOf(slots: seq<Slot>): (r: seq<Interceptor>)
    ensures |r| <= |slots|
  {
    if slots == [] then []
    else LiveOf(slots[..|slots| - 1]) + LiveOfSlot(slots[|slots| - 1])
  }

  /** `forEach` visits the slots of a concatenation in order: first those of `a`, then those of `b`. */
  lemma {:induction false} LiveOfAppend(a: seq<Slot>, b: seq<Slot>)
    ensures LiveOf(a + b) == LiveOf(a) + LiveOf(b)
    decreases |b|
  {
    if b == [] {
      assert a + b == a;
    } else {
      var b', last := b[..|b| - 1], b[|b| - 1];
      LiveOfAppend(a, b');
      assert (a + b)[..|a + b| - 1] == a + b' && (a + b)[|a + b| - 1] == last;
      assert LiveOf(a + b) == LiveOf(a + b') + LiveOfSlot(last);
      assert LiveOf(b) == LiveOf(b') + LiveOfSlot(last);
    }
  }

  /** Exactly the live slots are visited: an interceptor is visited iff some slot holds it. */
  lemma {:induction false} LiveOfMembers(slots: seq<Slot>, x: Interceptor)
    ensures x in LiveOf(slots) <==> exists i :: 0 <= i < |slots| && slots[i] == Live(x)
  {
    if slots != [] {
      var init := slots[..|slots| - 1];
      LiveOfMembers(init, x);
      if x in LiveOf(init) {
        var i :| 0 <= i < |init| && init[i] == Live(x);
        assert slots[i] == Live(x);
      }
      if exists i :: 0 <= i < |slots| && slots[i] == Live(x) {
        var i :| 0 <= i < |slots| && slots[i] == Live(x);
        if i < |init| {
          assert init[i] == Live(x);
        }
      }
    }
  }

  /** What `forEach` visits, split around slot `id`. */
  lemma {:induction false} LiveOfAround(slots: seq<Slot>, id: nat)
    requires id < |slots|
    ensures LiveOf(slots) == LiveOf(slots[..id]) + LiveOfSlot(slots[id]) + LiveOf(slots[id + 1..])
  {
    var front, back := slots[..id + 1], slots[id + 1..];
    assert slots == front + back;
    LiveOfAppend(front, back);
    assert front[..id] == slots[..id];
    assert LiveOf(front) == LiveOf(slots[..id]) + LiveOfSlot(slots[id]);
  }

  /** The interceptor one slot contributes to `forEach`. */
  function LiveOfSlot(slot: Slot): seq<Interceptor>
  {
    if slot.Live? then [slot.interceptor] else []
  }

  /** What `forEach` visits after one slot is overwritten. */
  lemma LiveOfReplaced(slots: seq<Slot>, id: nat, slot: Slot)
    requires id < |slots|
    ensures LiveOf(slots[id := slot]) == LiveOf(slots[..id]) + LiveOfSlot(slot) + LiveOf(slots[id + 1..])
  {
    var r := slots[id := slot];
    LiveOfAround(r, id);
    assert r[..id] == slots[..id] && r[id + 1..] == slots[id + 1..];
  }

  /** Ejecting a live slot removes that interceptor, and only it, from what `forEach` visits. */
  lemma EjectLive(slots: seq<Slot>, id: nat)
    requires |slots| <= ArrayIndexLimit
    requires id < |slots| && slots[id].Live?
    ensures LiveOf(slots) == LiveOf(slots[..id]) + [slots[id].interceptor] + LiveOf(slots[id + 1..])
    ensures LiveOf(EjectedAt(slots, id)) == LiveOf(slots[..id]) + LiveOf(slots[id + 1..])
    ensures |LiveOf(EjectedAt(slots, id))| + 1 == |LiveOf(slots)|
  {
    ReplaceLive(slots, id);
    assert EjectedAt(slots, id) == slots[id := Ejected];
  }

  lemma ReplaceLive(slots: seq<Slot>, id: nat)
    requires id < |slots| && slots[id].Live?
    ensures LiveOf(slots) == LiveOf(slots[..id]) + [slots[id].interceptor] + LiveOf(slots[id + 1..])
    ensures LiveOf(slots[id := Ejected]) == LiveOf(slots[..id]) + LiveOf(slots[id + 1..])
  {
    LiveOfAround(slots, id);
    LiveOfReplaced(slots, id, Ejected);
  }

  /** Ejecting an id that holds no live interceptor (already ejected, a hole, past the end, not an array index) leaves `forEach` unchanged. */
  lemma {:induction false} EjectNotLive(slots: seq<Slot>, id: int)
    requires !(0 <= id < |slots| && slots[id].Live?)
    ensures LiveOf(EjectedAt(slots, id)) == LiveOf(slots)
  {
    if !IsArrayIndex(id) {
    } else if id < |slots| {
      LiveOfAround(slots, id);
      LiveOfReplaced(slots, id, Ejected);
    } else {
      EjectPastEnd(slots, id);
    }
  }

  lemma {:induction false} EjectPastEnd(slots: seq<Slot>, id: int)
    requires IsArrayIndex(id) && id >= |slots|
    ensures LiveOf(EjectedAt(slots, id)) == LiveOf(slots)
  {
    var tail := Holes(id - |slots|) + [Ejected];
    assert EjectedAt(slots, id) == slots + tail;
    NoLiveSlots(tail);
    LiveOfAppend(slots, tail);
  }

  lemma {:induction false} NoLiveSlots(slots: seq<Slot>)
    requires forall i :: 0 <= i < |slots| ==> !slots[i].Live?
    ensures LiveOf(slots) == []
  {
    if slots != [] {
      NoLiveSlots(slots[..|slots| - 1]);
    }
  }

  /** Ejecting the same id twice leaves the array as ejecting it once. */
  lemma EjectIdempotent(slots: seq<Slot>, id: int)
    ensures EjectedAt(EjectedAt(slots, id), id) == EjectedAt(slots, id)
  {
  }

  class InterceptorManager {
    var interceptors: seq<Slot>

    constructor ()
      ensures interceptors == []
    {
      interceptors := [];
    }

    /** `use(resolved, rejected)`: appends one slot and returns its index, the old length. */
    method Use(resolved: Value, rejected: Value) returns (id: nat)
      modifies this
      ensures interceptors == old(interceptors) + [Live(Interceptor(resolved, rejected))]
      ensures id == |old(interceptors)| && interceptors[id] == Live(Interceptor(resolved, rejected))
    {
      interceptors := interceptors + [Live(Interceptor(resolved, rejected))];
      id := |interceptors| - 1;
    }

    /** `eject(id)`: `interceptors[id] = null`. */
    method Eject(id: int)
      modifies this
      ensures interceptors == EjectedAt(old(interceptors), id)
    {
      if !IsArrayIndex(id) {
      } else if id < |interceptors| {
        interceptors := interceptors[id := Ejected];
      } else {
        interceptors := interceptors + Holes(id - |interceptors|) + [Ejected];
      }
    }

    /** `forEach(fn)`: the interceptors passed to `fn`, in the order of the calls. */
    method ForEach() returns (visited: seq<Interceptor>)
      ensures visited == LiveOf(interceptors)
    {
      visited := [];
      for i := 0 to |interceptors|
        invariant visited == LiveOf(interceptors[..i])
      {
        assert interceptors[..i + 1][..i] == interceptors[..i];
        if interceptors[i].Live? {
          visited := visited + [interceptors[i].interceptor];
        }
      }
      assert interceptors[..|interceptors|] == interceptors;
    }
  }

  /** Ids are never reused: whatever is ejected in between, a later `use` returns a larger id. */
  method UseEjectUse(m: InterceptorManager, a: Interceptor, b: Interceptor, id: int) returns (first: nat, second: nat)
    modifies m
    ensures first < second < |m.interceptors|
    ensures m.interceptors[first] == (if id == first && IsArrayIndex(id) then Ejected else Live(a))
    ensures m.interceptors[second] == Live(b)
  {
    first := m.Use(a.resolved, a.rejected);
    ghost var before := m.interceptors;
    m.Eject(id);
    if id != first {
      EjectOthersUnchanged(before, id, first);
    }
    second := m.Use(b.resolved, b.rejected);
  }
}
