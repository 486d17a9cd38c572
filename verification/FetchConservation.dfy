/** What becomes of look-ahead blocks, under every interleaving. */
module FetchConservation {
  import opened Blocks
  import opened References
  import opened CacheTakes
  import opened CacheAccounting
  import opened FetchProtocol
  import opened FetchSafety

  /** Is this slot owed a look-ahead block of round r: asked for, or arrived and not yet pushed? */
  function SlotOwed(heap: seq<Cell>, r: nat): Slot -> nat {
    (slot: Slot) =>
      if (slot.task == AwaitSuccessor || slot.task.Fetched?) && slot.block.Some?
        && slot.block.value < |heap| && heap[slot.block.value].data.round + 1 == r then 1 else 0
  }

  /** Look-ahead blocks of round r that are cached, or on their way into the cache. */
  function Promised(s: State, r: nat): nat
    requires Bounded(s)
  {
    Occurs(RoundsOf(s.heap, s.cache), r) + Sum(s.calls, PerCall(SlotOwed(s.heap, r)))
  }

  /** The two heaps agree on the blocks of the first. */
  predicate SameData(heap: seq<Cell>, heap': seq<Cell>) {
    |heap| <= |heap'| && forall id :: 0 <= id < |heap| ==> heap'[id].data == heap[id].data
  }

  /** Measures that agree on every slot have the same sum. */
  lemma SlotSumsAgree(calls: seq<Call>, f: Slot -> nat, g: Slot -> nat)
    requires forall c, i :: 0 <= c < |calls| && 0 <= i < |calls[c].slots| ==>
      f(calls[c].slots[i]) == g(calls[c].slots[i])
    ensures Sum(calls, PerCall(f)) == Sum(calls, PerCall(g))
  {
    forall c | 0 <= c < |calls| ensures PerCall(f)(calls[c]) == PerCall(g)(calls[c]) {
      SumAgrees(calls[c].slots, f, g);
    }
    SumAgrees(calls, PerCall(f), PerCall(g));
  }

  /** Replacing a slot while the heap, and with it the measure, changes. */
  lemma SlotSwapped(s: State, f: Slot -> nat, g: Slot -> nat, c: nat, i: nat, slot: Slot, status: Status)
    requires HasSlot(s, c, i) && forall d, j :: HasSlot(s, d, j) ==> f(SlotAt(s, d, j)) == g(SlotAt(s, d, j))
    ensures Sum(WithSlot(s, c, i, slot, status).calls, PerCall(g)) + g(SlotAt(s, c, i))
         == Sum(s.calls, PerCall(f)) + g(slot)
  {
    forall d, j | 0 <= d < |s.calls| && 0 <= j < |s.calls[d].slots|
      ensures f(s.calls[d].slots[j]) == g(s.calls[d].slots[j])
    {
      assert HasSlot(s, d, j) && SlotAt(s, d, j) == s.calls[d].slots[j];
    }
    SlotSumsAgree(s.calls, f, g);
    SlotReplaced(s, c, i, slot, status, g);
  }

  lemma BoundedSlot(s: State, c: nat, i: nat)
    requires Bounded(s) && HasSlot(s, c, i)
    ensures SlotAt(s, c, i).block.Some? ==> SlotAt(s, c, i).block.value < |s.heap|
    ensures SlotAt(s, c, i).task.Fetched? ==> SlotAt(s, c, i).task.id < |s.heap|
  {
    assert BoundedCall(s.heap, s.calls[c]);
  }

  /** A new call has not asked for anything yet. */
  lemma {:induction false} IdleOwesNothing(heap: seq<Cell>, slots: seq<Slot>, r: nat)
    requires forall i :: 0 <= i < |slots| ==> slots[i].task == Idle
    ensures Sum(slots, SlotOwed(heap, r)) == 0
  {
    if slots != [] {
      IdleOwesNothing(heap, slots[1..], r);
    }
  }

  /** The change a step makes to what is promised of round r: what it adds, and what it takes. */
  function Added(s: State, step: Step, r: nat): nat
    requires Bounded(s) && Enabled(s, step)
  {
    if step.Link? then
      var batch := RoundsOfBatch(s, step.c);
      Occurs(Lookahead(batch, RoundSet(batch)), r)
    else 0
  }

  function Removed(s: State, step: Step, r: nat): nat
    requires Bounded(s) && Enabled(s, step)
  {
    match step
    case Start(nums) =>
      var cached := RoundsOf(s.heap, s.cache);
      Occurs(cached, r) - Left(Occurs(cached, r), Occurs(nums, r))
    case SuccessorFails(c, i) => if RoundAt(s, c, i) + 1 == r then 1 else 0
    case _ => 0
  }

  function RoundsOfBatch(s: State, c: nat): seq<nat>
    requires Bounded(s) && c < |s.calls| && Gathered(s.calls[c])
  {
    var batch := BatchOf(s.heap, s.calls[c].slots);
    seq(|batch|, i requires 0 <= i < |batch| => batch[i].round)
  }

  lemma StartConserves(chain: Chain, s: State, nums: seq<nat>, r: nat)
    requires Inv(chain, s) && Bounded(s) && Bounded(Apply(chain, s, Start(nums)))
    ensures Promised(Apply(chain, s, Start(nums)), r) + Removed(s, Start(nums), r) == Promised(s, r)
  {
    var slots := FreshSlots(TakeAll(s.heap, s.cache, nums).taken);
    TakeIsTakeRounds(RoundIn(s.heap), s.cache, nums);
    TakeCounts(RoundsOf(s.heap, s.cache), nums, r);
    IdleOwesNothing(s.heap, slots, r);
    SumAppend(s.calls, Call(nums, slots, Gathering), PerCall(SlotOwed(s.heap, r)));
  }

  /** A linked slot asks for its look-ahead unless the batch holds the next round. */
  predicate LinkedSlot(heap: seq<Cell>, slot: Slot, round: nat, batch: set<nat>) {
    && slot.block.Some? && slot.block.value < |heap|
    && heap[slot.block.value].data.round == round
    && (if round + 1 in batch then slot.task.Known? else slot.task == AwaitSuccessor)
  }

  predicate Linked(heap: seq<Cell>, slots: seq<Slot>, rounds: seq<nat>, batch: set<nat>) {
    && |slots| == |rounds|
    && forall i :: 0 <= i < |slots| ==> LinkedSlot(heap, slots[i], rounds[i], batch)
  }

  lemma {:induction false} LinkedOwes(heap: seq<Cell>, slots: seq<Slot>, rounds: seq<nat>, batch: set<nat>, r: nat)
    requires Linked(heap, slots, rounds, batch)
    ensures Sum(slots, SlotOwed(heap, r)) == Occurs(Lookahead(rounds, batch), r)
  {
    if slots != [] {
      LinkedOwes(heap, slots[1..], rounds[1..], batch, r);
      OccursConcat(Ahead(rounds[0], batch), Lookahead(rounds[1..], batch), r);
    }
  }

  lemma LinkLinks(chain: Chain, s: State, c: nat)
    requires Inv(chain, s) && Bounded(s) && Enabled(s, Link(c))
    ensures var rounds := RoundsOfBatch(s, c);
      Linked(s.heap, Apply(chain, s, Link(c)).calls[c].slots, rounds, RoundSet(rounds))
  {
    var batch := BatchOf(s.heap, s.calls[c].slots);
    var rounds, slots' := RoundsOfBatch(s, c), Apply(chain, s, Link(c)).calls[c].slots;
    forall i | 0 <= i < |batch| ensures LinkedSlot(s.heap, slots'[i], rounds[i], RoundSet(rounds)) {
      InBatchIff(batch, rounds, batch[i].round);
      assert slots'[i].task == BeginTask(batch, rounds[i]);
    }
  }

  lemma InBatchIff(batch: seq<BlockData>, rounds: seq<nat>, round: nat)
    requires |rounds| == |batch| && forall j :: 0 <= j < |batch| ==> rounds[j] == batch[j].round
    ensures round + 1 in RoundSet(rounds) <==> LinkInBatch(batch, round).Some?
  {
    if LinkInBatch(batch, round).Some? {
      var j :| 0 <= j < |batch| && batch[j].round == round + 1;
      assert rounds[j] == round + 1;
    }
  }

  lemma LinkConserves(chain: Chain, s: State, c: nat, r: nat)
    requires Inv(chain, s) && Bounded(s) && Enabled(s, Link(c)) && Bounded(Apply(chain, s, Link(c)))
    ensures Promised(Apply(chain, s, Link(c)), r) == Promised(s, r) + Added(s, Link(c), r)
  {
    var call, call' := s.calls[c], Apply(chain, s, Link(c)).calls[c];
    var rounds := RoundsOfBatch(s, c);
    forall i | 0 <= i < |call.slots| ensures call.slots[i].task == Idle {
      SlotInvariant(chain, s, c, i);
    }
    IdleOwesNothing(s.heap, call.slots, r);
    LinkLinks(chain, s, c);
    LinkedOwes(s.heap, call'.slots, rounds, RoundSet(rounds), r);
    SumUpdate(s.calls, c, call', PerCall(SlotOwed(s.heap, r)));
  }

  lemma PushConserves(chain: Chain, s: State, c: nat, i: nat, r: nat)
    requires Consistent(chain) && Inv(chain, s) && Bounded(s) && Enabled(s, Push(c, i))
    requires Bounded(Apply(chain, s, Push(c, i)))
    ensures Promised(Apply(chain, s, Push(c, i)), r) == Promised(s, r)
  {
    var s' := Apply(chain, s, Push(c, i));
    var id := SlotAt(s, c, i).task.id;
    SlotInvariant(chain, s, c, i);
    SlotReplaced(s, c, i, SlotAt(s', c, i), s.calls[c].status, SlotOwed(s.heap, r));
    assert RoundsOf(s.heap, s'.cache) == RoundsOf(s.heap, s.cache) + [s.heap[id].data.round];
    OccursAppend(RoundsOf(s.heap, s.cache), s.heap[id].data.round, r);
  }

  /** The steps that change one slot and leave the cache alone. */
  predicate LeavesCache(step: Step) {
    TaskOnly(step) || step.BlockArrives? || step.SuccessorArrives? || step.AssignHash?
  }

  lemma OneSlotMoves(chain: Chain, s: State, step: Step)
    requires Inv(chain, s) && Bounded(s) && Enabled(s, step) && LeavesCache(step)
    ensures var s' := Apply(chain, s, step);
      && WithSlot(s, step.c, step.i, SlotAt(s', step.c, step.i), s'.calls[step.c].status).calls == s'.calls
      && SameData(s.heap, s'.heap) && s'.cache == s.cache
      && RoundsOf(s'.heap, s.cache) == RoundsOf(s.heap, s.cache)
  {
    SlotInvariant(chain, s, step.c, step.i);
  }

  /** Such a step changes what its slot is owed only if the look-ahead fails. */
  lemma SlotOwedAfter(chain: Chain, s: State, step: Step, r: nat)
    requires Inv(chain, s) && Bounded(s) && Enabled(s, step) && LeavesCache(step)
    ensures var s' := Apply(chain, s, step);
      SlotOwed(s'.heap, r)(SlotAt(s', step.c, step.i)) + Removed(s, step, r)
         == SlotOwed(s'.heap, r)(SlotAt(s, step.c, step.i))
  {
    SlotInvariant(chain, s, step.c, step.i);
  }

  lemma SlotStepConserves(chain: Chain, s: State, step: Step, r: nat)
    requires Inv(chain, s) && Bounded(s) && Enabled(s, step) && Bounded(Apply(chain, s, step))
    requires LeavesCache(step)
    ensures Promised(Apply(chain, s, step), r) + Removed(s, step, r) == Promised(s, r)
  {
    var s' := Apply(chain, s, step);
    var c, i := step.c, step.i;
    OneSlotMoves(chain, s, step);
    SlotOwedAfter(chain, s, step, r);
    forall d, j | HasSlot(s, d, j)
      ensures SlotOwed(s.heap, r)(SlotAt(s, d, j)) == SlotOwed(s'.heap, r)(SlotAt(s, d, j))
    {
      BoundedSlot(s, d, j);
    }
    SlotSwapped(s, SlotOwed(s.heap, r), SlotOwed(s'.heap, r), c, i, SlotAt(s', c, i), s'.calls[c].status);
  }

  /**
   * Look-ahead blocks are conserved. Whatever the interleaving, the blocks of a round that are
   * cached or on their way there change only when a call takes them, when a batch asks for its
   * look-ahead, or when a look-ahead fetch fails.
   */
  lemma StepConserves(chain: Chain, s: State, step: Step, r: nat)
    requires Consistent(chain) && Inv(chain, s) && Bounded(s) && Enabled(s, step)
    ensures Bounded(Apply(chain, s, step))
    ensures Promised(Apply(chain, s, step), r) + Removed(s, step, r) == Promised(s, r) + Added(s, step, r)
  {
    StepKeepsInv(chain, s, step);
    InvBounded(chain, Apply(chain, s, step));
    match step
    case Start(nums) => StartConserves(chain, s, nums, r);
    case RoundReported(_) =>
    case Link(c) => LinkConserves(chain, s, c, r);
    case Push(c, i) => PushConserves(chain, s, c, i, r);
    case Return(c) =>
      SumUpdate(s.calls, c, s.calls[c].(status := Returned), PerCall(SlotOwed(s.heap, r)));
    case _ => SlotStepConserves(chain, s, step, r);
  }

  /** Once no look-ahead is under way, what is promised is what is cached. */
  lemma NothingUnderWay(s: State, r: nat)
    requires Bounded(s)
    requires forall c: nat, i: nat :: HasSlot(s, c, i) ==>
      SlotAt(s, c, i).task != AwaitSuccessor && !SlotAt(s, c, i).task.Fetched?
    ensures Promised(s, r) == Occurs(RoundsOf(s.heap, s.cache), r)
  {
    forall c: nat | c < |s.calls| ensures PerCall(SlotOwed(s.heap, r))(s.calls[c]) == 0 {
      forall i: nat | i < |s.calls[c].slots| ensures SlotOwed(s.heap, r)(s.calls[c].slots[i]) == 0 {
        assert HasSlot(s, c, i) && SlotAt(s, c, i) == s.calls[c].slots[i];
      }
      SumZero(s.calls[c].slots, SlotOwed(s.heap, r));
    }
    SumZero(s.calls, PerCall(SlotOwed(s.heap, r)));
  }

  // ----- Where fetched blocks are -----

  /** How many blocks of round r a slot holds: its own, and a look-ahead that has arrived. */
  function SlotHolds(heap: seq<Cell>, r: nat): Slot -> nat {
    (slot: Slot) =>
      (if slot.block.Some? && HasRound(heap, slot.block.value, r) then 1 else 0)
      + (if slot.task.Fetched? && HasRound(heap, slot.task.id, r) then 1 else 0)
  }

  predicate HasRound(heap: seq<Cell>, id: nat, r: nat) {
    id < |heap| && heap[id].data.round == r
  }

  /** The blocks of round r that are cached or held by calls. */
  function Held(s: State, r: nat): nat
    requires Bounded(s)
  {
    Occurs(RoundsOf(s.heap, s.cache), r) + Sum(s.calls, PerCall(SlotHolds(s.heap, r)))
  }

  /** The rounds of all block objects ever fetched. */
  function FetchedRounds(heap: seq<Cell>): seq<nat> {
    seq(|heap|, id requires 0 <= id < |heap| => heap[id].data.round)
  }

  /** Counting blocks by round. */
  function BlockHolds(heap: seq<Cell>, r: nat): nat -> nat {
    (id: nat) => if HasRound(heap, id, r) then 1 else 0
  }

  lemma {:induction false} RoundsAreCounted(heap: seq<Cell>, ids: seq<nat>, r: nat)
    requires forall k :: 0 <= k < |ids| ==> ids[k] < |heap|
    ensures Occurs(RoundsOf(heap, ids), r) == Sum(ids, BlockHolds(heap, r))
  {
    if ids != [] {
      RoundsAreCounted(heap, ids[1..], r);
      assert RoundsOf(heap, ids)[1..] == RoundsOf(heap, ids[1..]);
    }
  }

  lemma LinkHolds(chain: Chain, s: State, c: nat, r: nat)
    requires Inv(chain, s) && Bounded(s) && Enabled(s, Link(c)) && Bounded(Apply(chain, s, Link(c)))
    ensures Held(Apply(chain, s, Link(c)), r) == Held(s, r)
  {
    var call, call' := s.calls[c], Apply(chain, s, Link(c)).calls[c];
    forall i | 0 <= i < |call.slots|
      ensures SlotHolds(s.heap, r)(call'.slots[i]) == SlotHolds(s.heap, r)(call.slots[i])
    {
      SlotInvariant(chain, s, c, i);
    }
    SumEqual(call.slots, call'.slots, SlotHolds(s.heap, r));
    SumUpdate(s.calls, c, call', PerCall(SlotHolds(s.heap, r)));
  }

  lemma PushHolds(chain: Chain, s: State, c: nat, i: nat, r: nat)
    requires Bounded(s) && Enabled(s, Push(c, i)) && Bounded(Apply(chain, s, Push(c, i)))
    ensures Held(Apply(chain, s, Push(c, i)), r) == Held(s, r)
  {
    var s' := Apply(chain, s, Push(c, i));
    var id := SlotAt(s, c, i).task.id;
    BoundedSlot(s, c, i);
    SlotReplaced(s, c, i, SlotAt(s', c, i), s.calls[c].status, SlotHolds(s.heap, r));
    assert RoundsOf(s.heap, s'.cache) == RoundsOf(s.heap, s.cache) + [s.heap[id].data.round];
    OccursAppend(RoundsOf(s.heap, s.cache), s.heap[id].data.round, r);
  }

  /** A step of one slot makes it hold what the step fetches. */
  lemma SlotHoldsAfter(chain: Chain, s: State, step: Step, r: nat)
    requires Inv(chain, s) && Bounded(s) && Enabled(s, step) && LeavesCache(step)
    ensures var s' := Apply(chain, s, step);
      SlotHolds(s'.heap, r)(SlotAt(s', step.c, step.i)) + Occurs(FetchedRounds(s.heap), r)
         == SlotHolds(s'.heap, r)(SlotAt(s, step.c, step.i)) + Occurs(FetchedRounds(s'.heap), r)
  {
    var s' := Apply(chain, s, step);
    SlotInvariant(chain, s, step.c, step.i);
    if step.BlockArrives? || step.SuccessorArrives? {
      var round := s'.heap[|s.heap|].data.round;
      assert FetchedRounds(s'.heap) == FetchedRounds(s.heap) + [round];
      OccursAppend(FetchedRounds(s.heap), round, r);
    } else {
      assert FetchedRounds(s'.heap) == FetchedRounds(s.heap);
    }
  }

  lemma SlotStepHolds(chain: Chain, s: State, step: Step, r: nat)
    requires Inv(chain, s) && Bounded(s) && Enabled(s, step) && Bounded(Apply(chain, s, step))
    requires LeavesCache(step)
    ensures var s' := Apply(chain, s, step);
      Held(s', r) + Occurs(FetchedRounds(s.heap), r) == Held(s, r) + Occurs(FetchedRounds(s'.heap), r)
  {
    var s' := Apply(chain, s, step);
    var c, i := step.c, step.i;
    OneSlotMoves(chain, s, step);
    SlotHoldsAfter(chain, s, step, r);
    forall d, j | HasSlot(s, d, j)
      ensures SlotHolds(s.heap, r)(SlotAt(s, d, j)) == SlotHolds(s'.heap, r)(SlotAt(s, d, j))
    {
      BoundedSlot(s, d, j);
    }
    SlotSwapped(s, SlotHolds(s.heap, r), SlotHolds(s'.heap, r), c, i, SlotAt(s', c, i), s'.calls[c].status);
  }

  lemma StartHolds(chain: Chain, s: State, nums: seq<nat>, r: nat)
    requires Inv(chain, s) && Bounded(s) && Bounded(Apply(chain, s, Start(nums)))
    ensures Held(Apply(chain, s, Start(nums)), r) == Held(s, r)
  {
    var t := TakeAll(s.heap, s.cache, nums);
    TakeConserves(RoundIn(s.heap), s.cache, nums, BlockHolds(s.heap, r));
    FreshSlotsSum(t.taken, SlotHolds(s.heap, r), IfAny(BlockHolds(s.heap, r)));
    RoundsAreCounted(s.heap, s.cache, r);
    RoundsAreCounted(s.heap, t.cache, r);
    SumAppend(s.calls, Call(nums, FreshSlots(t.taken), Gathering), PerCall(SlotHolds(s.heap, r)));
  }

  /** Blocks are neither lost nor copied: what is cached or held grows by exactly what is fetched. */
  lemma StepHolds(chain: Chain, s: State, step: Step, r: nat)
    requires Consistent(chain) && Inv(chain, s) && Bounded(s) && Enabled(s, step)
    ensures var s' := Apply(chain, s, step);
      && Bounded(s')
      && Held(s', r) + Occurs(FetchedRounds(s.heap), r) == Held(s, r) + Occurs(FetchedRounds(s'.heap), r)
  {
    StepKeepsInv(chain, s, step);
    InvBounded(chain, Apply(chain, s, step));
    match step
    case Start(nums) => StartHolds(chain, s, nums, r);
    case RoundReported(_) =>
    case Link(c) => LinkHolds(chain, s, c, r);
    case Push(c, i) => PushHolds(chain, s, c, i, r);
    case Return(c) =>
      SumUpdate(s.calls, c, s.calls[c].(status := Returned), PerCall(SlotHolds(s.heap, r)));
    case _ => SlotStepHolds(chain, s, step, r);
  }
}
