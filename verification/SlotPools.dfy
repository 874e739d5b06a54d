/**
 The slot arrays of engine and API as they are kept: searched and changed in place. Each method
 does to its array what the lifecycle model says, and takes the first slot that the model allows.
 */
module SlotPools {
  import opened StreamMirror

  datatype Room = Room(index: nat) | Full

  /** The engine's stream slots. */
  class EnginePool {
    const slots: array<ESlot>
    var generation: nat

    constructor (capacity: nat)
      ensures slots.Length == capacity && generation == 0 && fresh(slots)
      ensures forall i :: 0 <= i < capacity ==> slots[i] == EmptyEngine
    {
      slots := new ESlot[capacity](_ => EmptyEngine);
      generation := 0;
    }

    /** The first slot from `first` on that is free and not kept resident by the backend. */
    method FindFree(first: nat, end: nat) returns (r: Room)
      requires first <= end <= slots.Length
      ensures r.Room? ==> first <= r.index < end && slots[r.index].kind == Free && !slots[r.index].resident
      ensures r.Room? ==> forall i :: first <= i < r.index ==> slots[i].kind != Free || slots[i].resident
      ensures r.Full? ==> forall i :: first <= i < end ==> slots[i].kind != Free || slots[i].resident
    {
      var i := first;
      while i < end
        invariant first <= i <= end && forall k :: first <= k < i ==> slots[k].kind != Free || slots[k].resident
      {
        if slots[i].kind == Free && !slots[i].resident {
          return Room(i);
        }
        i := i + 1;
      }
      return Full;
    }

    /** A local stream moves in, under a generation that no slot has had. */
    method OpenLocal(e: nat, bidi: bool, budgeted: bool)
      requires e < slots.Length
      modifies this`generation, slots
      ensures generation == old(generation) + 1
      ensures slots[..] == old(slots[..])[e := FreshWt(generation, true, bidi, -1, budgeted)]
    {
      generation := generation + 1;
      slots[e] := FreshWt(generation, true, bidi, -1, budgeted);
    }

    method Release(e: nat)
      requires e < slots.Length
      modifies slots
      ensures slots[..] == old(slots[..])[e := ReleaseIfDone(old(slots[e]))]
    {
      var v := slots[e];
      if v.kind == Wt && !v.flags.send && !v.flags.fin && !v.flags.recv && !v.drain {
        slots[e] := v.(kind := Free);
      }
    }

    /** A local reset, stop or abort: sides close, and a closed receive side drains. */
    method Shutdown(e: nat, send: bool, recv: bool)
      requires e < slots.Length
      modifies slots
      ensures slots[..] == old(slots[..])[e := EngineShutdown(old(slots[e]), send, recv)]
    {
      var v := slots[e];
      var flags := v.flags;
      if send {
        flags := flags.(send := false, fin := false);
      }
      if recv {
        flags := flags.(recv := false);
        v := v.(drain := true);
      }
      slots[e] := v.(flags := flags);
      Release(e);
    }

    /** The end of the session goes through all slots. */
    method CloseStreams()
      modifies slots
      ensures slots[..] == CloseAll(old(slots[..]))
    {
      ghost var before := slots[..];
      var i := 0;
      while i < slots.Length
        invariant 0 <= i <= slots.Length
        invariant forall k :: 0 <= k < slots.Length ==> slots[k] == if k < i then EngineClose(before[k]) else before[k]
      {
        var v := slots[i];
        if v.kind == Wt {
          if v.flags.recv {
            v := v.(drain := true);
          }
          slots[i] := v.(flags := Shut);
          Release(i);
        }
        i := i + 1;
      }
      assert slots[..] == CloseAll(before);
    }
  }

  /** The API's handle slots. */
  class HandlePool {
    const slots: array<ASlot>
    var occupancies: nat

    constructor (capacity: nat)
      ensures slots.Length == capacity && occupancies == 0 && fresh(slots)
      ensures forall i :: 0 <= i < capacity ==> slots[i] == EmptyHandle
    {
      slots := new ASlot[capacity](_ => EmptyHandle);
      occupancies := 0;
    }

    /** An unreferenced slot becomes the handle of engine slot `e`. */
    method Take(h: nat, e: nat, local: bool, bidi: bool)
      requires h < slots.Length
      modifies this`occupancies, slots
      ensures occupancies == old(occupancies) + 1
      ensures slots[..] == old(slots[..])[h :=
        ASlot(1, 0, true, Flags(local || bidi, false, !local || bidi), false, local, bidi, e, old(occupancies))]
    {
      slots[h] := ASlot(1, 0, true, Flags(local || bidi, false, !local || bidi), false, local, bidi, e, occupancies);
      occupancies := occupancies + 1;
    }

    /** A transient reference held across a callback. */
    method HoldSlot(h: nat)
      requires h < slots.Length
      modifies slots
      ensures slots[..] == old(slots[..])[h := old(slots[h]).(refs := old(slots[h]).refs + 1)]
    {
      slots[h] := slots[h].(refs := slots[h].refs + 1);
    }

    method DropSlot(h: nat)
      requires h < slots.Length
      modifies slots
      ensures slots[..] == old(slots[..])[h := old(slots[h]).(refs := if old(slots[h]).refs > 0 then old(slots[h]).refs - 1 else old(slots[h]).refs)]
    {
      if slots[h].refs > 0 {
        slots[h] := slots[h].(refs := slots[h].refs - 1);
      }
    }

    /** The next handle, from `i` on, that the teardown has to close. */
    method NextAlive(from: nat) returns (r: Room)
      requires from <= slots.Length
      ensures r.Room? ==> from <= r.index < slots.Length && slots[r.index].refs > 0 && slots[r.index].alive
      ensures r.Room? ==> forall i :: from <= i < r.index ==> !(slots[i].refs > 0 && slots[i].alive)
      ensures r.Full? ==> forall i :: from <= i < slots.Length ==> !(slots[i].refs > 0 && slots[i].alive)
    {
      var i := from;
      while i < slots.Length
        invariant from <= i <= slots.Length && forall k :: from <= k < i ==> !(slots[k].refs > 0 && slots[k].alive)
      {
        if slots[i].refs > 0 && slots[i].alive {
          return Room(i);
        }
        i := i + 1;
      }
      return Full;
    }
  }
}
