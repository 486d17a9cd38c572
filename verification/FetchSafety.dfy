/** Every step of the fetch protocol keeps its invariant. */
module FetchSafety {
  import opened Values
  import opened Blocks
  import opened References
  import opened FetchProtocol

  lemma SlotInvariant(chain: Chain, s: State, c: nat, i: nat)
    requires CallsOk(chain, s.heap, s.calls) && HasSlot(s, c, i)
    ensures i < |s.calls[c].nums|
    ensures SlotOk(chain, s.heap, s.calls[c].nums[i], SlotAt(s, c, i), s.calls[c].status)
  {
    assert CallOk(chain, s.heap, s.calls[c]);
  }

  /** One slot may change if the new slot is fit, and a call may be rejected at any time. */
  lemma SlotChanged(chain: Chain, s: State, c: nat, i: nat, slot: Slot, status: Status)
    requires CallsOk(chain, s.heap, s.calls) && HasSlot(s, c, i) && i < |s.calls[c].nums|
    requires status == s.calls[c].status || status == Rejected
    requires SlotOk(chain, s.heap, s.calls[c].nums[i], slot, status)
    ensures CallsOk(chain, s.heap, WithSlot(s, c, i, slot, status).calls)
  {
    var s' := WithSlot(s, c, i, slot, status);
    forall d | 0 <= d < |s'.calls| ensures CallOk(chain, s.heap, s'.calls[d]) {
      assert CallOk(chain, s.heap, s.calls[d]);
      forall j | 0 <= j < |s'.calls[d].slots|
        ensures SlotOk(chain, s.heap, s'.calls[d].nums[j], s'.calls[d].slots[j], s'.calls[d].status)
      {
        SlotInvariant(chain, s, d, j);
      }
    }
  }

  /** A new block object disturbs nothing. */
  lemma HeapGrew(chain: Chain, heap: seq<Cell>, cell: Cell, calls: seq<Call>)
    requires CallsOk(chain, heap, calls)
    ensures CallsOk(chain, heap + [cell], calls)
  {
    forall c | 0 <= c < |calls| ensures CallOk(chain, heap + [cell], calls[c]) {
      assert CallOk(chain, heap, calls[c]);
      forall i | 0 <= i < |calls[c].slots|
        ensures SlotOk(chain, heap + [cell], calls[c].nums[i], calls[c].slots[i], calls[c].status)
      {
        assert SlotOk(chain, heap, calls[c].nums[i], calls[c].slots[i], calls[c].status);
      }
    }
  }

  lemma StartKeepsInv(chain: Chain, s: State, nums: seq<nat>)
    requires Consistent(chain) && Inv(chain, s) && Bounded(s)
    ensures Inv(chain, Apply(chain, s, Start(nums)))
  {
    var s' := Apply(chain, s, Start(nums));
    var slots := FreshSlots(TakeAll(s.heap, s.cache, nums).taken);
    var call := Call(nums, slots, Gathering);
    TakeAllSlots(s.heap, s.cache, nums);
    assert CallOk(chain, s.heap, call) by {
      forall i | 0 <= i < |nums| ensures SlotOk(chain, s.heap, nums[i], slots[i], Gathering) {
        assert FreshSlot(s.heap, nums[i], slots[i]);
      }
    }
    forall id: nat ensures Refs(s', id) == Refs(s, id) {
      TakeAllRefs(s.heap, s.cache, nums, id);
      SumAppend(s.calls, call, PerCall(SlotRefs(id)));
    }
  }

  lemma ArrivalKeepsInv(chain: Chain, s: State, step: Step)
    requires Consistent(chain) && Inv(chain, s) && Bounded(s) && Enabled(s, step)
    requires step.BlockArrives? || step.SuccessorArrives?
    ensures Inv(chain, Apply(chain, s, step))
  {
    var s' := Apply(chain, s, step);
    var c, i := step.c, step.i;
    SlotInvariant(chain, s, c, i);
    var grown := s.(heap := s'.heap);
    HeapGrew(chain, s.heap, s'.heap[|s.heap|], s.calls);
    SlotChanged(chain, grown, c, i, SlotAt(s', c, i), s.calls[c].status);
    forall id: nat ensures Refs(s', id) == Refs(s, id) + if id == |s.heap| then 1 else 0 {
      ArrivalRefs(chain, s, step, id);
    }
  }

  /** The new object is referenced from the slot that asked for it, and nothing else changes hands. */
  lemma ArrivalRefs(chain: Chain, s: State, step: Step, id: nat)
    requires Bounded(s) && Enabled(s, step) && (step.BlockArrives? || step.SuccessorArrives?)
    requires |s.calls[step.c].nums| == |s.calls[step.c].slots|
    ensures Refs(Apply(chain, s, step), id) == Refs(s, id) + if id == |s.heap| then 1 else 0
  {
    var c, i, s' := step.c, step.i, Apply(chain, s, step);
    WithSlotRefs(s, c, i, SlotAt(s', c, i), s.calls[c].status, id);
    assert BoundedCall(s.heap, s.calls[c]);
    assert SlotAt(s, c, i).block != Some(|s.heap|) && SlotAt(s, c, i).task != Fetched(|s.heap|);
  }

  lemma LinkKeepsInv(chain: Chain, s: State, c: nat)
    requires Consistent(chain) && Inv(chain, s) && Bounded(s) && Enabled(s, Link(c))
    ensures Inv(chain, Apply(chain, s, Link(c)))
  {
    var s' := Apply(chain, s, Link(c));
    var call, call' := s.calls[c], s'.calls[c];
    var batch := BatchOf(s.heap, call.slots);
    assert CallOk(chain, s.heap, call);
    forall i | 0 <= i < |call.slots|
      ensures SlotOk(chain, s.heap, call.nums[i], call'.slots[i], Linking)
      ensures batch[i] == chain(batch[i].round)
      ensures forall id: nat :: SlotRefs(id)(call'.slots[i]) == SlotRefs(id)(call.slots[i])
    {
      SlotInvariant(chain, s, c, i);
      LinkIsGenuine(chain, batch, batch[i].round);
    }
    forall d | 0 <= d < |s'.calls| ensures CallOk(chain, s.heap, s'.calls[d]) {
      assert CallOk(chain, s.heap, s.calls[d]);
    }
    forall id: nat ensures Refs(s', id) == Refs(s, id) {
      SumEqual(call.slots, call'.slots, SlotRefs(id));
      SumUpdate(s.calls, c, call', PerCall(SlotRefs(id)));
    }
  }

  /** The steps that only move a task on, or reject it. */
  predicate TaskOnly(step: Step) {
    step.BlockFails? || step.SuccessorFails? || step.HealthReport? || step.HealthFails?
  }

  lemma TaskKeepsInv(chain: Chain, s: State, step: Step)
    requires Inv(chain, s) && Bounded(s) && Enabled(s, step) && TaskOnly(step)
    ensures Inv(chain, Apply(chain, s, step))
  {
    var s' := Apply(chain, s, step);
    var c, i := step.c, step.i;
    SlotInvariant(chain, s, c, i);
    SlotChanged(chain, s, c, i, SlotAt(s', c, i), s'.calls[c].status);
    forall id: nat ensures Refs(s', id) == Refs(s, id) {
      WithSlotRefs(s, c, i, SlotAt(s', c, i), s'.calls[c].status, id);
    }
  }

  lemma PushKeepsInv(chain: Chain, s: State, c: nat, i: nat)
    requires Consistent(chain) && Inv(chain, s) && Bounded(s) && Enabled(s, Push(c, i))
    ensures Inv(chain, Apply(chain, s, Push(c, i)))
  {
    var s' := Apply(chain, s, Push(c, i));
    SlotInvariant(chain, s, c, i);
    SlotChanged(chain, s, c, i, SlotAt(s', c, i), s.calls[c].status);
    forall id: nat ensures Refs(s', id) == Refs(s, id) {
      WithSlotRefs(s, c, i, SlotAt(s', c, i), s.calls[c].status, id);
      OccursAppend(s.cache, SlotAt(s, c, i).task.id, id);
    }
  }

  /** The object a hash is written to is held by its own slot alone. */
  lemma HashWriteIsPrivate(s: State, c: nat, i: nat, d: nat, j: nat)
    requires Exclusive(s) && HasBlock(s, c, i) && HasSlot(s, d, j)
    ensures SlotAt(s, c, i).block.value !in s.cache
    ensures !(SlotAt(s, d, j).task == Fetched(SlotAt(s, c, i).block.value))
    ensures c != d || i != j ==> SlotAt(s, d, j).block != SlotAt(s, c, i).block
  {
    var id := SlotAt(s, c, i).block.value;
    SlotCounted(s, c, i, id);
    OccursMember(s.cache, id);
    if c != d || i != j {
      SlotsCounted(s, c, i, d, j, id);
    }
  }

  lemma AssignKeepsInv(chain: Chain, s: State, c: nat, i: nat)
    requires Consistent(chain) && Inv(chain, s) && Bounded(s) && Enabled(s, AssignHash(c, i))
    ensures Inv(chain, Apply(chain, s, AssignHash(c, i)))
  {
    var s' := Apply(chain, s, AssignHash(c, i));
    var id := SlotAt(s, c, i).block.value;
    SlotInvariant(chain, s, c, i);
    HashWriteIsPrivate(s, c, i, c, i);
    forall d | 0 <= d < |s'.calls| ensures CallOk(chain, s'.heap, s'.calls[d]) {
      assert CallOk(chain, s.heap, s.calls[d]);
      forall j | 0 <= j < |s'.calls[d].slots|
        ensures SlotOk(chain, s'.heap, s'.calls[d].nums[j], s'.calls[d].slots[j], s'.calls[d].status)
      {
        SlotInvariant(chain, s, d, j);
        HashWriteIsPrivate(s, c, i, d, j);
      }
    }
    forall other: nat ensures Refs(s', other) == Refs(s, other) {
      WithSlotRefs(s, c, i, SlotAt(s', c, i), s.calls[c].status, other);
    }
  }

  lemma ReturnKeepsInv(chain: Chain, s: State, c: nat)
    requires Inv(chain, s) && Bounded(s) && Enabled(s, Return(c))
    ensures Inv(chain, Apply(chain, s, Return(c)))
  {
    var s' := Apply(chain, s, Return(c));
    forall d | 0 <= d < |s'.calls| ensures CallOk(chain, s.heap, s'.calls[d]) {
      assert CallOk(chain, s.heap, s.calls[d]);
    }
    forall id: nat ensures Refs(s', id) == Refs(s, id) {
      SumUpdate(s.calls, c, s'.calls[c], PerCall(SlotRefs(id)));
    }
  }

  lemma StepKeepsInv(chain: Chain, s: State, step: Step)
    requires Consistent(chain) && Inv(chain, s) && Bounded(s) && Enabled(s, step)
    ensures Inv(chain, Apply(chain, s, step))
  {
    match step
    case Start(nums) => StartKeepsInv(chain, s, nums);
    case BlockArrives(_, _) => ArrivalKeepsInv(chain, s, step);
    case SuccessorArrives(_, _) => ArrivalKeepsInv(chain, s, step);
    case Link(c) => LinkKeepsInv(chain, s, c);
    case Push(c, i) => PushKeepsInv(chain, s, c, i);
    case AssignHash(c, i) => AssignKeepsInv(chain, s, c, i);
    case Return(c) => ReturnKeepsInv(chain, s, c);
    case RoundReported(_) =>
      forall id: nat ensures Refs(Apply(chain, s, step), id) == Refs(s, id) {
      }
    case _ => TaskKeepsInv(chain, s, step);
  }
}
