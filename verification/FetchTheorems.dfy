/** What holds over whole runs of the fetch protocol. */
module FetchTheorems {
  import opened Values
  import opened Blocks
  import opened References
  import opened FetchProtocol
  import opened FetchSafety

  lemma {:induction false} RunKeepsInv(chain: Chain, run: seq<State>, k: nat)
    requires Consistent(chain) && Run(chain, run) && k < |run|
    ensures Inv(chain, run[k])
  {
    if k == 0 {
      assert forall id: nat :: Refs(run[0], id) == 0;
    } else {
      RunKeepsInv(chain, run, k - 1);
      assert Next(chain, run[k - 1], run[(k - 1) + 1]);
      var step :| Enabled(run[k - 1], step) && run[k] == Apply(chain, run[k - 1], step);
      StepKeepsInv(chain, run[k - 1], step);
    }
  }

  /** What a call has produced: the blocks of its batch, in order, with their hashes. */
  ghost predicate Delivers(heap: seq<Cell>, call: Call, ds: seq<Delivered>) {
    && |ds| == |call.slots|
    && forall i :: 0 <= i < |ds| ==>
      && call.slots[i].block.Some?
      && call.slots[i].block.value < |heap|
      && heap[call.slots[i].block.value] == Cell(ds[i].data, Some(ds[i].hash))
  }

  /** The cache is invisible: under every interleaving a call returns what the uncached fetch would. */
  lemma CacheRefinesNoCache(chain: Chain, run: seq<State>, k: nat, c: nat)
    requires Consistent(chain) && Run(chain, run) && k < |run|
    requires c < |run[k].calls| && run[k].calls[c].status == Returned
    ensures Delivers(run[k].heap, run[k].calls[c], Uncached(chain, run[k].calls[c].nums))
  {
    RunKeepsInv(chain, run, k);
    var call := run[k].calls[c];
    assert CallOk(chain, run[k].heap, call);
    forall i | 0 <= i < |call.slots|
      ensures call.slots[i].block.Some? && call.slots[i].block.value < |run[k].heap|
      ensures run[k].heap[call.slots[i].block.value]
           == Cell(chain(call.nums[i]), Some(HashOf(chain, call.nums[i])))
    {
      SlotInvariant(chain, run[k], c, i);
      assert Genuine(chain, run[k].heap[call.slots[i].block.value]);
    }
  }

  /**
   * Ownership: a block object in a batch is not in the cache, not in another batch, not twice in
   * its own, and not about to be pushed; the cache never holds an object twice.
   */
  lemma BlocksAreOwned(chain: Chain, run: seq<State>, k: nat, c: nat, i: nat)
    requires Consistent(chain) && Run(chain, run) && k < |run| && HasBlock(run[k], c, i)
    ensures var s := run[k];
      var id := SlotAt(s, c, i).block.value;
      && id !in s.cache
      && (forall d: nat, j: nat :: HasSlot(s, d, j) ==>
        && SlotAt(s, d, j).task != Fetched(id)
        && (SlotAt(s, d, j).block == Some(id) ==> d == c && j == i))
  {
    RunKeepsInv(chain, run, k);
    var s := run[k];
    HashWriteIsPrivate(s, c, i, c, i);
    forall d: nat, j: nat | HasSlot(s, d, j)
      ensures SlotAt(s, d, j).task != Fetched(SlotAt(s, c, i).block.value)
      ensures SlotAt(s, d, j).block == Some(SlotAt(s, c, i).block.value) ==> d == c && j == i
    {
      HashWriteIsPrivate(s, c, i, d, j);
    }
  }

  /** No block object is lost: each is cached, in a batch, or fetched and about to be cached. */
  lemma NoBlockIsLost(chain: Chain, run: seq<State>, k: nat, id: nat)
    requires Consistent(chain) && Run(chain, run) && k < |run| && id < |run[k].heap|
    ensures id in run[k].cache || exists c: nat, i: nat ::
      HasSlot(run[k], c, i) && (SlotAt(run[k], c, i).block == Some(id) || SlotAt(run[k], c, i).task == Fetched(id))
  {
    RunKeepsInv(chain, run, k);
    var s := run[k];
    assert Refs(s, id) == 1;
    OccursMember(s.cache, id);
    if id !in s.cache {
      var c := SumPositive(s.calls, PerCall(SlotRefs(id)));
      var i := SumPositive(s.calls[c].slots, SlotRefs(id));
      assert HasSlot(s, c, i) && SlotRefs(id)(SlotAt(s, c, i)) > 0;
    }
  }

  /** Every cached block is what a fresh fetch of its round gives: chain data, no hash, held once. */
  lemma CacheHoldsFreshFetches(chain: Chain, run: seq<State>, k: nat, j: nat)
    requires Consistent(chain) && Run(chain, run) && k < |run| && j < |run[k].cache|
    ensures var s := run[k];
      && s.cache[j] < |s.heap|
      && s.heap[s.cache[j]] == Cell(chain(s.heap[s.cache[j]].data.round), None)
      && (forall l :: 0 <= l < |s.cache| && l != j ==> s.cache[l] != s.cache[j])
  {
    RunKeepsInv(chain, run, k);
    var s := run[k];
    var id := s.cache[j];
    assert Genuine(chain, s.heap[id]) && Refs(s, id) <= 1;
    forall l | 0 <= l < |s.cache| && l != j ensures s.cache[l] != s.cache[j] {
      if s.cache[l] == s.cache[j] {
        OccursTwice(s.cache, if l < j then l else j, if l < j then j else l);
      }
    }
  }

  // ----- What later steps leave alone -----

  ghost predicate CallExtends(call: Call, call': Call) {
    && call'.nums == call.nums
    && |call'.slots| == |call.slots|
    && (forall i :: 0 <= i < |call.slots| && call.slots[i].block.Some? ==>
        call'.slots[i].block == call.slots[i].block)
    && (call.status == Returned ==> call' == call)
  }

  /** Block data never changes, a hash is written at most once, and a returned call is final. */
  ghost predicate Extends(s: State, s': State) {
    && |s.heap| <= |s'.heap|
    && |s.calls| <= |s'.calls|
    && (forall id :: 0 <= id < |s.heap| ==>
      && s'.heap[id].data == s.heap[id].data
      && (s.heap[id].hash.Some? ==> s'.heap[id] == s.heap[id]))
    && (forall c :: 0 <= c < |s.calls| ==> CallExtends(s.calls[c], s'.calls[c]))
  }

  lemma SlotStepExtends(chain: Chain, s: State, step: Step)
    requires Inv(chain, s) && Bounded(s) && Enabled(s, step)
    requires SlotStep(step)
    ensures Extends(s, Apply(chain, s, step))
  {
    var c, i := step.c, step.i;
    var s' := Apply(chain, s, step);
    SlotInvariant(chain, s, c, i);
    var slot, slot' := SlotAt(s, c, i), SlotAt(s', c, i);
    assert slot.block.Some? ==> slot'.block == slot.block;
    assert CallExtends(s.calls[c], s'.calls[c]);
    assert forall d :: 0 <= d < |s.calls| && d != c ==> s'.calls[d] == s.calls[d];
  }

  lemma StepExtends(chain: Chain, s: State, step: Step)
    requires Inv(chain, s) && Bounded(s) && Enabled(s, step)
    ensures Extends(s, Apply(chain, s, step))
  {
    match step
    case Start(_) =>
    case RoundReported(_) =>
    case Link(c) =>
      assert CallExtends(s.calls[c], Apply(chain, s, step).calls[c]);
    case Return(c) =>
      assert CallExtends(s.calls[c], Apply(chain, s, step).calls[c]);
    case _ => SlotStepExtends(chain, s, step);
  }

  lemma ExtendsTransitive(s: State, t: State, u: State)
    requires Extends(s, t) && Extends(t, u)
    ensures Extends(s, u)
  {
    forall c | 0 <= c < |s.calls| ensures CallExtends(s.calls[c], u.calls[c]) {
      assert CallExtends(s.calls[c], t.calls[c]) && CallExtends(t.calls[c], u.calls[c]);
    }
    forall id | 0 <= id < |s.heap|
      ensures u.heap[id].data == s.heap[id].data && (s.heap[id].hash.Some? ==> u.heap[id] == s.heap[id])
    {
      assert t.heap[id].data == s.heap[id].data;
    }
  }

  lemma RunStepExtends(chain: Chain, run: seq<State>, k: nat)
    requires Consistent(chain) && Run(chain, run) && k + 1 < |run|
    ensures Extends(run[k], run[k + 1])
  {
    RunKeepsInv(chain, run, k);
    assert Next(chain, run[k], run[k + 1]);
    var step :| Enabled(run[k], step) && run[k + 1] == Apply(chain, run[k], step);
    StepExtends(chain, run[k], step);
  }

  lemma {:induction false} RunExtends(chain: Chain, run: seq<State>, k: nat, l: nat)
    requires Consistent(chain) && Run(chain, run) && k <= l < |run|
    ensures Extends(run[k], run[l])
    decreases l
  {
    if k < l {
      RunExtends(chain, run, k, l - 1);
      RunStepExtends(chain, run, l - 1);
      ExtendsTransitive(run[k], run[l - 1], run[l]);
    }
  }

  /** A block still in the cache later is untouched; a block once returned is final and never cached. */
  lemma ReturnedAndCachedAreStable(chain: Chain, run: seq<State>, k: nat, l: nat, id: nat)
    requires Consistent(chain) && Run(chain, run) && k <= l < |run| && id < |run[k].heap|
    ensures id < |run[l].heap|
    ensures id in run[k].cache && id in run[l].cache ==> run[l].heap[id] == run[k].heap[id]
    ensures forall c: nat, i: nat ::
      HasSlot(run[k], c, i) && SlotAt(run[k], c, i).block == Some(id) && run[k].calls[c].status == Returned
      ==> run[l].heap[id] == run[k].heap[id] && id !in run[l].cache
  {
    RunExtends(chain, run, k, l);
    RunKeepsInv(chain, run, k);
    RunKeepsInv(chain, run, l);
    forall c: nat, i: nat |
      HasSlot(run[k], c, i) && SlotAt(run[k], c, i).block == Some(id) && run[k].calls[c].status == Returned
      ensures run[l].heap[id] == run[k].heap[id] && id !in run[l].cache
    {
      assert CallExtends(run[k].calls[c], run[l].calls[c]);
      SlotInvariant(chain, run[k], c, i);
      BlocksAreOwned(chain, run, l, c, i);
    }
  }

  /** A retry, after any failures in between, returns what the first call would have returned. */
  lemma RetryAgrees(chain: Chain, run: seq<State>, k: nat, c: nat, l: nat, d: nat)
    requires Consistent(chain) && Run(chain, run) && k <= l < |run|
    requires c < |run[k].calls| && d < |run[l].calls| && run[l].calls[d].status == Returned
    requires run[l].calls[d].nums == run[k].calls[c].nums
    ensures c < |run[l].calls| && run[l].calls[c].nums == run[k].calls[c].nums
    ensures Delivers(run[l].heap, run[l].calls[d], Uncached(chain, run[k].calls[c].nums))
    ensures run[l].calls[c].status == Returned ==>
      Delivers(run[l].heap, run[l].calls[c], Uncached(chain, run[k].calls[c].nums))
  {
    RunExtends(chain, run, k, l);
    assert CallExtends(run[k].calls[c], run[l].calls[c]);
    CacheRefinesNoCache(chain, run, l, d);
    if run[l].calls[c].status == Returned {
      CacheRefinesNoCache(chain, run, l, c);
    }
  }

  /** Headers of adjacent rounds link up, wherever the hash came from; the hash is the block's own. */
  lemma HeadersLink(chain: Chain, hashOf: BlockData -> string, run: seq<State>, k: nat, c: nat, ds: seq<Delivered>)
    requires Consistent(chain) && HashLinked(chain, hashOf) && Run(chain, run) && k < |run|
    requires c < |run[k].calls| && run[k].calls[c].status == Returned
    requires Delivers(run[k].heap, run[k].calls[c], ds)
    ensures |ds| == |run[k].calls[c].nums|
    ensures forall i :: 0 <= i < |ds| ==>
      && AlgorandBlockToHeader(ds[i]).blockHeight == run[k].calls[c].nums[i]
      && AlgorandBlockToHeader(ds[i]).blockHash == hashOf(ds[i].data)
      && AlgorandBlockToHeader(ds[i]).timestamp == 1000 * chain(run[k].calls[c].nums[i]).timestamp
    ensures forall i, j :: 0 <= i < |ds| && 0 <= j < |ds| && ds[j].data.round == ds[i].data.round + 1 ==>
      AlgorandBlockToHeader(ds[j]).parentHash == AlgorandBlockToHeader(ds[i]).blockHash
  {
    CacheRefinesNoCache(chain, run, k, c);
    var us := Uncached(chain, run[k].calls[c].nums);
    assert |us| == |ds|;
    forall i | 0 <= i < |ds| ensures ds[i] == us[i] {
    }
  }

  // ----- Progress -----

  /** The call a step belongs to. */
  function CallOf(step: Step): Option<nat> {
    match step
    case Start(_) => None
    case RoundReported(_) => None
    case Link(c) => Some(c)
    case Return(c) => Some(c)
    case _ => Some(step.c)
  }

  predicate Finished(call: Call) {
    call.status == Returned || call.status == Rejected
  }

  /** No call is ever stuck: while it is unfinished, a step of its own can be taken. */
  lemma NeverStuck(chain: Chain, run: seq<State>, k: nat, c: nat)
    requires Consistent(chain) && Run(chain, run) && k < |run|
    requires c < |run[k].calls| && !Finished(run[k].calls[c])
    ensures exists step :: Enabled(run[k], step) && CallOf(step) == Some(c)
  {
    RunKeepsInv(chain, run, k);
    var s, call := run[k], run[k].calls[c];
    if call.status == Gathering {
      if Gathered(call) {
        assert Enabled(s, Link(c));
      } else {
        var i :| 0 <= i < |call.slots| && call.slots[i].block == None;
        SlotInvariant(chain, s, c, i);
        assert Enabled(s, BlockArrives(c, i));
      }
    } else if AllAssigned(call) {
      assert Enabled(s, Return(c));
    } else {
      var i :| 0 <= i < |call.slots| && call.slots[i].task != Assigned;
      SlotInvariant(chain, s, c, i);
      match call.slots[i].task
      case AwaitSuccessor => assert Enabled(s, SuccessorArrives(c, i));
      case Fetched(_) => assert Enabled(s, Push(c, i));
      case Known(_) => assert Enabled(s, AssignHash(c, i));
      case Probing => assert Enabled(s, HealthReport(c, i));
      case Polling => assert Enabled(s, HealthReport(c, i));
    }
  }

  /** Steps a slot may still take, not counting polls that find the node behind. */
  function SlotWork(slot: Slot): nat {
    match slot.task
    case Idle => if slot.block == None then 6 else 5
    case AwaitSuccessor => 4
    case Fetched(_) => 3
    case Probing => 3
    case Known(_) => 2
    case Polling => 2
    case Assigned => 0
    case Broken => 0
  }

  function Work(call: Call): nat {
    Sum(call.slots, SlotWork) + StatusWork(call.status)
  }

  /** A poll that finds the node still behind. */
  predicate IdlePoll(s: State, step: Step)
    requires Bounded(s) && Enabled(s, step)
  {
    step.HealthReport? && SlotAt(s, step.c, step.i).task == Polling && s.reported < RoundAt(s, step.c, step.i) + 1
  }

  lemma LinkUsesUpWork(chain: Chain, s: State, c: nat)
    requires Inv(chain, s) && Bounded(s) && Enabled(s, Link(c))
    ensures Work(Apply(chain, s, Link(c)).calls[c]) < Work(s.calls[c])
  {
    var call, call' := s.calls[c], Apply(chain, s, Link(c)).calls[c];
    forall i | 0 <= i < |call.slots| ensures SlotWork(call'.slots[i]) <= SlotWork(call.slots[i]) {
      SlotInvariant(chain, s, c, i);
    }
    SumSmaller(call'.slots, call.slots, SlotWork);
  }

  /** The steps that change one slot of a call. */
  predicate SlotStep(step: Step) {
    !step.Start? && !step.RoundReported? && !step.Link? && !step.Return?
  }

  function StatusWork(status: Status): nat {
    match status
    case Gathering => 2
    case Linking => 1
    case _ => 0
  }

  lemma SlotStepLowersWork(chain: Chain, s: State, step: Step)
    requires Inv(chain, s) && Bounded(s) && Enabled(s, step) && SlotStep(step)
    ensures var call, call' := s.calls[step.c], Apply(chain, s, step).calls[step.c];
      && call'.slots == call.slots[step.i := call'.slots[step.i]]
      && StatusWork(call'.status) <= StatusWork(call.status)
      && if IdlePoll(s, step) then call' == call else SlotWork(call'.slots[step.i]) < SlotWork(call.slots[step.i])
  {
    SlotInvariant(chain, s, step.c, step.i);
  }

  lemma SlotStepUsesUpWork(chain: Chain, s: State, step: Step)
    requires Inv(chain, s) && Bounded(s) && Enabled(s, step) && SlotStep(step)
    ensures var call, call' := s.calls[step.c], Apply(chain, s, step).calls[step.c];
      if IdlePoll(s, step) then Work(call') == Work(call) else Work(call') < Work(call)
  {
    SlotStepLowersWork(chain, s, step);
    var call, call' := s.calls[step.c], Apply(chain, s, step).calls[step.c];
    SumUpdate(call.slots, step.i, call'.slots[step.i], SlotWork);
  }

  /** Each step uses up work of its own call and of no other, except for idle polls. */
  lemma StepsUseUpWork(chain: Chain, s: State, step: Step, c: nat)
    requires Inv(chain, s) && Bounded(s) && Enabled(s, step) && c < |s.calls|
    ensures var call, call' := s.calls[c], Apply(chain, s, step).calls[c];
      if CallOf(step) != Some(c) || IdlePoll(s, step) then Work(call') == Work(call)
      else Work(call') < Work(call)
  {
    match step
    case Start(_) =>
    case RoundReported(_) =>
    case Return(_) =>
    case Link(d) =>
      if d == c {
        LinkUsesUpWork(chain, s, c);
      }
    case _ =>
      if step.c == c {
        SlotStepUsesUpWork(chain, s, step);
      }
  }

  /** While the node is behind, polling changes nothing: without another report the wait never ends. */
  lemma PollingGoesOn(chain: Chain, run: seq<State>, k: nat, c: nat, i: nat)
    requires Consistent(chain) && Run(chain, run) && k < |run| && HasSlot(run[k], c, i)
    requires SlotAt(run[k], c, i).task == Polling
    requires i < |run[k].calls[c].nums| && run[k].reported < run[k].calls[c].nums[i] + 1
    ensures Bounded(run[k]) && Enabled(run[k], HealthReport(c, i))
    ensures Apply(chain, run[k], HealthReport(c, i)) == run[k]
  {
    RunKeepsInv(chain, run, k);
    InvBounded(chain, run[k]);
    SlotInvariant(chain, run[k], c, i);
    var s, s' := run[k], Apply(chain, run[k], HealthReport(c, i));
    assert s'.calls[c].slots == s.calls[c].slots;
    assert s'.calls[c] == s.calls[c] && s'.calls == s.calls;
  }

  /** A call of n blocks has at most 6n + 2 steps ahead of it, idle polls aside. */
  lemma WorkIsBounded(call: Call)
    ensures Work(call) <= 6 * |call.slots| + 2
  {
    SumBounded(call.slots, SlotWork, 6);
  }
}
