/**
 * Any number of concurrent `fetchBlocks` calls on one api object, interleaved at their awaits.
 * Between two awaits JavaScript runs alone, so each such stretch is one step.
 */
module FetchProtocol {
  import opened Values
  import opened Blocks
  import opened References
  import opened CacheTakes

  /** A block object on the heap. Only `hash` is ever written. */
  datatype Cell = Cell(data: BlockData, hash: Option<string>)

  /** Where the hashing of one block of a batch stands. */
  datatype Task =
    | Idle               // the batch is still being gathered
    | AwaitSuccessor     // the look-ahead fetch is in flight
    | Fetched(id: nat)   // it has arrived, its continuation has not run
    | Known(hash: string) // the hash is known, its assignment has not run
    | Probing            // the look-ahead failed, the node's round is being read
    | Polling            // waiting for the node to report the next round
    | Assigned
    | Broken             // this promise was rejected

  datatype Slot = Slot(block: Option<nat>, task: Task)

  datatype Status = Gathering | Linking | Returned | Rejected

  datatype Call = Call(nums: seq<nat>, slots: seq<Slot>, status: Status)

  /** `cache` and the slots hold references into `heap`; `reported` is the node's last round. */
  datatype State = State(heap: seq<Cell>, cache: seq<nat>, calls: seq<Call>, reported: nat)

  // ----- Steps -----

  datatype Step =
    | Start(nums: seq<nat>)
    | BlockArrives(c: nat, i: nat)
    | BlockFails(c: nat, i: nat)
    | Link(c: nat)
    | SuccessorArrives(c: nat, i: nat)
    | Push(c: nat, i: nat)
    | SuccessorFails(c: nat, i: nat)
    | HealthReport(c: nat, i: nat)
    | HealthFails(c: nat, i: nat)
    | AssignHash(c: nat, i: nat)
    | Return(c: nat)
    | RoundReported(round: nat)

  predicate HasSlot(s: State, c: nat, i: nat) {
    c < |s.calls| && i < |s.calls[c].slots|
  }

  function SlotAt(s: State, c: nat, i: nat): Slot
    requires HasSlot(s, c, i)
  {
    s.calls[c].slots[i]
  }

  predicate HasBlock(s: State, c: nat, i: nat) {
    HasSlot(s, c, i) && SlotAt(s, c, i).block.Some?
  }

  predicate Gathered(call: Call) {
    forall i :: 0 <= i < |call.slots| ==> call.slots[i].block.Some?
  }

  predicate AllAssigned(call: Call) {
    forall i :: 0 <= i < |call.slots| ==> call.slots[i].task == Assigned
  }

  /** Every reference of the state points into the heap. */
  predicate Bounded(s: State) {
    && (forall k :: 0 <= k < |s.cache| ==> s.cache[k] < |s.heap|)
    && (forall c :: 0 <= c < |s.calls| ==> BoundedCall(s.heap, s.calls[c]))
  }

  predicate BoundedCall(heap: seq<Cell>, call: Call) {
    && |call.slots| == |call.nums|
    && forall i :: 0 <= i < |call.slots| ==>
      && (call.slots[i].block.Some? ==> call.slots[i].block.value < |heap|)
      && (call.slots[i].task.Fetched? ==> call.slots[i].task.id < |heap|)
  }

  predicate Enabled(s: State, step: Step) {
    match step
    case Start(_) => true
    case RoundReported(round) => s.reported <= round
    case Link(c) => c < |s.calls| && s.calls[c].status == Gathering && Gathered(s.calls[c])
    case Return(c) => c < |s.calls| && s.calls[c].status == Linking && AllAssigned(s.calls[c])
    case BlockArrives(c, i) => HasSlot(s, c, i) && SlotAt(s, c, i) == Slot(None, Idle)
    case BlockFails(c, i) => HasSlot(s, c, i) && SlotAt(s, c, i) == Slot(None, Idle)
    case SuccessorArrives(c, i) => HasBlock(s, c, i) && SlotAt(s, c, i).task == AwaitSuccessor
    case SuccessorFails(c, i) => HasBlock(s, c, i) && SlotAt(s, c, i).task == AwaitSuccessor
    case Push(c, i) => HasSlot(s, c, i) && SlotAt(s, c, i).task.Fetched?
    case HealthReport(c, i) =>
      HasBlock(s, c, i) && (SlotAt(s, c, i).task == Probing || SlotAt(s, c, i).task == Polling)
    case HealthFails(c, i) =>
      HasSlot(s, c, i) && (SlotAt(s, c, i).task == Probing || SlotAt(s, c, i).task == Polling)
    case AssignHash(c, i) =>
      HasBlock(s, c, i) && SlotAt(s, c, i).task.Known?
  }

  function RoundIn(heap: seq<Cell>): nat -> nat {
    (id: nat) => if id < |heap| then heap[id].data.round else 0
  }

  /** The rounds of the referenced blocks. */
  function RoundsOf(heap: seq<Cell>, ids: seq<nat>): seq<nat> {
    RoundsBy(RoundIn(heap), ids)
  }

  /** The synchronous part of `fetchBlocks`: each round in turn takes its block out of the cache. */
  function TakeAll(heap: seq<Cell>, cache: seq<nat>, nums: seq<nat>): Taken<nat> {
    Take(RoundIn(heap), cache, nums)
  }

  /** The slots of a call that has taken its cached blocks. */
  function FreshSlots(taken: seq<Option<nat>>): seq<Slot> {
    seq(|taken|, i requires 0 <= i < |taken| => Slot(taken[i], Idle))
  }

  function BatchOf(heap: seq<Cell>, slots: seq<Slot>): seq<BlockData>
    requires forall i :: 0 <= i < |slots| ==> slots[i].block.Some? && slots[i].block.value < |heap|
  {
    seq(|slots|, i requires 0 <= i < |slots| => heap[slots[i].block.value].data)
  }

  /** `getBlockHash` up to its first await. */
  function BeginTask(batch: seq<BlockData>, round: nat): Task {
    match LinkInBatch(batch, round)
    case Some(h) => Known(h)
    case None => AwaitSuccessor
  }

  function WithSlot(s: State, c: nat, i: nat, slot: Slot, status: Status): State
    requires HasSlot(s, c, i)
  {
    var call := s.calls[c];
    s.(calls := s.calls[c := call.(slots := call.slots[i := slot], status := status)])
  }

  function WithTask(s: State, c: nat, i: nat, task: Task): State
    requires HasSlot(s, c, i)
  {
    WithSlot(s, c, i, SlotAt(s, c, i).(task := task), s.calls[c].status)
  }

  /** A rejected promise rejects the whole call; the other promises go on running. */
  function Reject(s: State, c: nat, i: nat): State
    requires HasSlot(s, c, i)
  {
    WithSlot(s, c, i, SlotAt(s, c, i).(task := Broken), Rejected)
  }

  /** `block.round` of the block in a slot. */
  function RoundAt(s: State, c: nat, i: nat): nat
    requires Bounded(s) && HasBlock(s, c, i)
  {
    s.heap[SlotAt(s, c, i).block.value].data.round
  }

  function Apply(chain: Chain, s: State, step: Step): State
    requires Bounded(s) && Enabled(s, step)
  {
    match step
    case Start(nums) =>
      var t := TakeAll(s.heap, s.cache, nums);
      s.(cache := t.cache, calls := s.calls + [Call(nums, FreshSlots(t.taken), Gathering)])
    case RoundReported(round) => s.(reported := round)
    case Link(c) =>
      var call := s.calls[c];
      var batch := BatchOf(s.heap, call.slots);
      var slots := seq(|call.slots|, i requires 0 <= i < |call.slots| =>
        call.slots[i].(task := BeginTask(batch, batch[i].round)));
      s.(calls := s.calls[c := call.(slots := slots, status := Linking)])
    case Return(c) => s.(calls := s.calls[c := s.calls[c].(status := Returned)])
    case BlockArrives(c, i) =>
      var cell := Cell(chain(s.calls[c].nums[i]), None);
      WithSlot(s, c, i, Slot(Some(|s.heap|), Idle), s.calls[c].status).(heap := s.heap + [cell])
    case BlockFails(c, i) => Reject(s, c, i)
    case SuccessorArrives(c, i) =>
      var cell := Cell(chain(RoundAt(s, c, i) + 1), None);
      WithTask(s, c, i, Fetched(|s.heap|)).(heap := s.heap + [cell])
    case Push(c, i) =>
      var id := SlotAt(s, c, i).task.id;
      WithTask(s, c, i, Known(s.heap[id].data.previousBlockHash)).(cache := s.cache + [id])
    case SuccessorFails(c, i) => WithTask(s, c, i, Probing)
    case HealthReport(c, i) =>
      if s.reported < RoundAt(s, c, i) + 1 then WithTask(s, c, i, Polling) else Reject(s, c, i)
    case HealthFails(c, i) => Reject(s, c, i)
    case AssignHash(c, i) =>
      var slot := SlotAt(s, c, i);
      var cell := s.heap[slot.block.value].(hash := Some(slot.task.hash));
      WithTask(s, c, i, Assigned).(heap := s.heap[slot.block.value := cell])
  }

  ghost predicate Next(chain: Chain, s: State, s': State) {
    Bounded(s) && exists step :: Enabled(s, step) && s' == Apply(chain, s, step)
  }

  /** A run from an api object just made: its cache is empty and no call has started. */
  ghost predicate Run(chain: Chain, run: seq<State>) {
    && run != []
    && run[0].heap == [] && run[0].cache == [] && run[0].calls == []
    && forall k :: 0 <= k < |run| - 1 ==> Next(chain, run[k], run[k + 1])
  }

  // ----- Ownership -----

  function SlotRefs(id: nat): Slot -> nat {
    (slot: Slot) =>
      (if slot.block == Some(id) then 1 else 0) + (if slot.task == Fetched(id) then 1 else 0)
  }

  /** A measure of slots, summed over a call. */
  function PerCall(f: Slot -> nat): Call -> nat {
    (call: Call) => Sum(call.slots, f)
  }

  /** How many references to a block object exist: from the cache, from batches, and in flight. */
  function Refs(s: State, id: nat): nat {
    Occurs(s.cache, id) + Sum(s.calls, PerCall(SlotRefs(id)))
  }

  /** Every block object is referenced from exactly one place, and none that was never made. */
  ghost predicate Exclusive(s: State) {
    forall id: nat :: Refs(s, id) == if id < |s.heap| then 1 else 0
  }

  // ----- Invariant -----

  /** A block object holds what a fresh fetch of its round would hold, and no wrong hash. */
  ghost predicate Genuine(chain: Chain, cell: Cell) {
    && cell.data == chain(cell.data.round)
    && (cell.hash.Some? ==> cell.hash.value == HashOf(chain, cell.data.round))
  }

  ghost predicate SlotOk(chain: Chain, heap: seq<Cell>, num: nat, slot: Slot, status: Status) {
    && (slot.block.Some? ==>
      && slot.block.value < |heap|
      && heap[slot.block.value].data == chain(num)
      && (slot.task == Assigned <==> heap[slot.block.value].hash.Some?))
    && (slot.task.Fetched? ==>
      && slot.task.id < |heap|
      && heap[slot.task.id] == Cell(chain(num + 1), None))
    && (slot.task.Known? ==> slot.task.hash == HashOf(chain, num))
    && (slot.block == None ==> slot.task == Idle || slot.task == Broken)
    && (status == Gathering ==> slot.task == Idle)
    && (status == Linking ==> slot.block.Some? && slot.task != Idle && slot.task != Broken)
    && (status == Returned ==> slot.block.Some? && slot.task == Assigned)
  }

  ghost predicate CallOk(chain: Chain, heap: seq<Cell>, call: Call) {
    && |call.slots| == |call.nums|
    && forall i :: 0 <= i < |call.slots| ==> SlotOk(chain, heap, call.nums[i], call.slots[i], call.status)
  }

  ghost predicate CallsOk(chain: Chain, heap: seq<Cell>, calls: seq<Call>) {
    forall c :: 0 <= c < |calls| ==> CallOk(chain, heap, calls[c])
  }

  ghost predicate CacheOk(heap: seq<Cell>, cache: seq<nat>) {
    forall k :: 0 <= k < |cache| ==> cache[k] < |heap| && heap[cache[k]].hash == None
  }

  ghost predicate Inv(chain: Chain, s: State) {
    && Exclusive(s)
    && (forall id :: 0 <= id < |s.heap| ==> Genuine(chain, s.heap[id]))
    && CacheOk(s.heap, s.cache)
    && CallsOk(chain, s.heap, s.calls)
  }

  lemma InvBounded(chain: Chain, s: State)
    requires Inv(chain, s)
    ensures Bounded(s)
  {
    forall c | 0 <= c < |s.calls| ensures BoundedCall(s.heap, s.calls[c]) {
      assert CallOk(chain, s.heap, s.calls[c]);
      forall i | 0 <= i < |s.calls[c].slots|
        ensures s.calls[c].slots[i].block.Some? ==> s.calls[c].slots[i].block.value < |s.heap|
        ensures s.calls[c].slots[i].task.Fetched? ==> s.calls[c].slots[i].task.id < |s.heap|
      {
        assert SlotOk(chain, s.heap, s.calls[c].nums[i], s.calls[c].slots[i], s.calls[c].status);
      }
    }
  }

  // ----- Reference counting -----

  /** Replacing a slot changes a sum over all slots by the difference of the two slots. */
  lemma SlotReplaced(s: State, c: nat, i: nat, slot: Slot, status: Status, f: Slot -> nat)
    requires HasSlot(s, c, i)
    ensures Sum(WithSlot(s, c, i, slot, status).calls, PerCall(f)) + f(SlotAt(s, c, i))
         == Sum(s.calls, PerCall(f)) + f(slot)
  {
    var call := s.calls[c];
    SumUpdate(call.slots, i, slot, f);
    SumUpdate(s.calls, c, call.(slots := call.slots[i := slot], status := status), PerCall(f));
  }

  /** Replacing a slot moves exactly the references the two slots differ in. */
  lemma WithSlotRefs(s: State, c: nat, i: nat, slot: Slot, status: Status, id: nat)
    requires HasSlot(s, c, i)
    ensures Refs(WithSlot(s, c, i, slot, status), id) + SlotRefs(id)(SlotAt(s, c, i))
         == Refs(s, id) + SlotRefs(id)(slot)
  {
    SlotReplaced(s, c, i, slot, status, SlotRefs(id));
  }

  /** The references of a slot are counted apart from those of the cache. */
  lemma SlotCounted(s: State, c: nat, i: nat, id: nat)
    requires HasSlot(s, c, i)
    ensures Occurs(s.cache, id) + SlotRefs(id)(SlotAt(s, c, i)) <= Refs(s, id)
  {
    SumMember(s.calls[c].slots, i, SlotRefs(id));
    SumMember(s.calls, c, PerCall(SlotRefs(id)));
  }

  /** The references of two slots are counted apart. */
  lemma SlotsCounted(s: State, c: nat, i: nat, d: nat, j: nat, id: nat)
    requires HasSlot(s, c, i) && HasSlot(s, d, j) && (c != d || i != j)
    ensures SlotRefs(id)(SlotAt(s, c, i)) + SlotRefs(id)(SlotAt(s, d, j)) <= Refs(s, id)
  {
    if c == d {
      SumPair(s.calls[c].slots, if i < j then i else j, if i < j then j else i, SlotRefs(id));
      SumMember(s.calls, c, PerCall(SlotRefs(id)));
    } else {
      SumMember(s.calls[c].slots, i, SlotRefs(id));
      SumMember(s.calls[d].slots, j, SlotRefs(id));
      SumPair(s.calls, if c < d then c else d, if c < d then d else c, PerCall(SlotRefs(id)));
    }
  }

  lemma {:induction false} FreshSlotsSum(taken: seq<Option<nat>>, f: Slot -> nat, g: Option<nat> -> nat)
    requires forall b :: f(Slot(b, Idle)) == g(b)
    ensures Sum(FreshSlots(taken), f) == Sum(taken, g)
  {
    if taken != [] {
      FreshSlotsSum(taken[1..], f, g);
      assert FreshSlots(taken)[1..] == FreshSlots(taken[1..]);
    }
  }

  /** The synchronous takes move references out of the cache and lose none. */
  lemma TakeAllRefs(heap: seq<Cell>, cache: seq<nat>, nums: seq<nat>, id: nat)
    ensures var t := TakeAll(heap, cache, nums);
      Occurs(cache, id) == Occurs(t.cache, id) + Sum(FreshSlots(t.taken), SlotRefs(id))
  {
    TakeConserves(RoundIn(heap), cache, nums, Is(id));
    FreshSlotsSum(TakeAll(heap, cache, nums).taken, SlotRefs(id), IfAny(Is(id)));
  }

  /** Each slot gets a cached block of its round, or waits for a fetch. */
  lemma TakeAllSlots(heap: seq<Cell>, cache: seq<nat>, nums: seq<nat>)
    requires CacheOk(heap, cache)
    ensures var t := TakeAll(heap, cache, nums);
      && CacheOk(heap, t.cache)
      && forall i :: 0 <= i < |nums| ==> FreshSlot(heap, nums[i], FreshSlots(t.taken)[i])
  {
    TakenWereCached(RoundIn(heap), cache, nums);
    var t := TakeAll(heap, cache, nums);
    forall k | 0 <= k < |t.cache| ensures t.cache[k] < |heap| && heap[t.cache[k]].hash == None {
      assert t.cache[k] in cache;
    }
  }

  predicate FreshSlot(heap: seq<Cell>, num: nat, slot: Slot) {
    && slot.task == Idle
    && (slot.block.Some? ==>
      && slot.block.value < |heap|
      && heap[slot.block.value].data.round == num
      && heap[slot.block.value].hash == None)
  }
}
