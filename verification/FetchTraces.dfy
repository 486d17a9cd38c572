/** Series of steps of the fetch protocol: how long they are, and what they leave in the cache. */
module FetchTraces {
  import opened Values
  import opened Blocks
  import opened References
  import opened CacheAccounting
  import opened FetchProtocol
  import opened FetchSafety
  import opened FetchTheorems
  import opened FetchConservation

  /** The steps can be taken one after the other, beginning in this state. */
  ghost predicate Possible(chain: Chain, s: State, steps: seq<Step>)
    decreases |steps|
  {
    steps != [] ==>
      Bounded(s) && Enabled(s, steps[0]) && Possible(chain, Apply(chain, s, steps[0]), steps[1..])
  }

  /** The state they lead to. */
  ghost function Reached(chain: Chain, s: State, steps: seq<Step>): State
    requires Possible(chain, s, steps)
    decreases |steps|
  {
    if steps == [] then s else Reached(chain, Apply(chain, s, steps[0]), steps[1..])
  }

  lemma {:induction false} TraceKeepsInv(chain: Chain, s: State, steps: seq<Step>)
    requires Consistent(chain) && Inv(chain, s) && Possible(chain, s, steps)
    ensures Inv(chain, Reached(chain, s, steps)) && Bounded(Reached(chain, s, steps))
    decreases |steps|
  {
    InvBounded(chain, s);
    if steps != [] {
      StepKeepsInv(chain, s, steps[0]);
      TraceKeepsInv(chain, Apply(chain, s, steps[0]), steps[1..]);
    }
  }

  /** Every stretch of a run is such a series of steps. */
  lemma {:induction false} RunIsTrace(chain: Chain, run: seq<State>, k: nat, l: nat) returns (steps: seq<Step>)
    requires Run(chain, run) && k <= l < |run|
    ensures |steps| == l - k && Possible(chain, run[k], steps) && Reached(chain, run[k], steps) == run[l]
    decreases l - k
  {
    steps := [];
    if k < l {
      assert Next(chain, run[k], run[k + 1]);
      var step :| Enabled(run[k], step) && run[k + 1] == Apply(chain, run[k], step);
      var later := RunIsTrace(chain, run, k + 1, l);
      steps := [step] + later;
      assert steps[1..] == later;
    }
  }

  // ----- How many steps a call takes -----

  /** The steps of call c, not counting polls that find the node still behind. */
  ghost function OwnSteps(chain: Chain, s: State, steps: seq<Step>, c: nat): nat
    requires Possible(chain, s, steps)
    decreases |steps|
  {
    if steps == [] then 0
    else
      (if CallOf(steps[0]) == Some(c) && !IdlePoll(s, steps[0]) then 1 else 0)
      + OwnSteps(chain, Apply(chain, s, steps[0]), steps[1..], c)
  }

  /** However steps are interleaved, those of a call are no more than the work it has left. */
  lemma {:induction false} StepsAreWithinWork(chain: Chain, s: State, steps: seq<Step>, c: nat)
    requires Consistent(chain) && Inv(chain, s) && Possible(chain, s, steps) && c < |s.calls|
    ensures c < |Reached(chain, s, steps).calls|
    ensures OwnSteps(chain, s, steps, c) + Work(Reached(chain, s, steps).calls[c]) <= Work(s.calls[c])
    decreases |steps|
  {
    if steps != [] {
      StepKeepsInv(chain, s, steps[0]);
      StepsUseUpWork(chain, s, steps[0], c);
      StepsAreWithinWork(chain, Apply(chain, s, steps[0]), steps[1..], c);
    }
  }

  /** From any reachable state, a call of n blocks takes at most 6n + 2 more steps, idle polls aside. */
  lemma StepsAreBounded(chain: Chain, run: seq<State>, k: nat, steps: seq<Step>, c: nat)
    requires Consistent(chain) && Run(chain, run) && k < |run|
    requires Possible(chain, run[k], steps) && c < |run[k].calls|
    ensures OwnSteps(chain, run[k], steps, c) <= Work(run[k].calls[c])
    ensures OwnSteps(chain, run[k], steps, c) <= 6 * |run[k].calls[c].nums| + 2
  {
    RunKeepsInv(chain, run, k);
    StepsAreWithinWork(chain, run[k], steps, c);
    assert CallOk(chain, run[k].heap, run[k].calls[c]);
    WorkIsBounded(run[k].calls[c]);
  }

  // ----- What a call that runs alone leaves in the cache -----

  predicate Settled(call: Call) {
    forall i :: 0 <= i < |call.slots| ==> call.slots[i].task != AwaitSuccessor && !call.slots[i].task.Fetched?
  }

  /** No call has a look-ahead under way. */
  predicate AllSettled(s: State) {
    forall d :: 0 <= d < |s.calls| ==> Settled(s.calls[d])
  }

  /** Only call c takes steps, and the node's round may grow. */
  predicate Alone(steps: seq<Step>, c: nat) {
    forall k :: 0 <= k < |steps| ==> steps[k].RoundReported? || CallOf(steps[k]) == Some(c)
  }

  /** A promise of the call was or will be rejected. */
  predicate Doomed(call: Call) {
    call.status == Rejected
    || exists i :: 0 <= i < |call.slots| && FailedTask(call.slots[i].task)
  }

  predicate FailedTask(task: Task) {
    task == Probing || task == Polling || task == Broken
  }

  /** A failed promise ends in a rejection and in nothing else. */
  lemma FailedTaskStays(chain: Chain, s: State, step: Step, c: nat, i: nat)
    requires Inv(chain, s) && Bounded(s) && Enabled(s, step) && CallOf(step) == Some(c)
    requires HasSlot(s, c, i) && FailedTask(SlotAt(s, c, i).task)
    ensures HasSlot(Apply(chain, s, step), c, i) && FailedTask(SlotAt(Apply(chain, s, step), c, i).task)
  {
    SlotInvariant(chain, s, c, i);
  }

  lemma DoomedStays(chain: Chain, s: State, step: Step, c: nat)
    requires Inv(chain, s) && Bounded(s) && Enabled(s, step) && c < |s.calls| && Doomed(s.calls[c])
    ensures Doomed(Apply(chain, s, step).calls[c])
  {
    if CallOf(step) == Some(c) {
      if i :| 0 <= i < |s.calls[c].slots| && FailedTask(s.calls[c].slots[i].task) {
        FailedTaskStays(chain, s, step, c, i);
      }
    }
  }

  lemma {:induction false} DoomedNeverReturns(chain: Chain, s: State, steps: seq<Step>, c: nat)
    requires Consistent(chain) && Inv(chain, s) && Possible(chain, s, steps)
    requires c < |s.calls| && Doomed(s.calls[c])
    ensures c < |Reached(chain, s, steps).calls| && Reached(chain, s, steps).calls[c].status != Returned
    decreases |steps|
  {
    if steps == [] {
      assert CallOk(chain, s.heap, s.calls[c]);
    } else {
      StepKeepsInv(chain, s, steps[0]);
      DoomedStays(chain, s, steps[0], c);
      DoomedNeverReturns(chain, Apply(chain, s, steps[0]), steps[1..], c);
    }
  }

  /** What the call has yet to promise of round r. */
  function YetToAsk(call: Call, r: nat): nat {
    if call.status == Gathering then AheadCount(call.nums, r) else 0
  }

  lemma GatheredRounds(chain: Chain, s: State, c: nat)
    requires Consistent(chain) && Inv(chain, s) && Bounded(s) && c < |s.calls| && Gathered(s.calls[c])
    ensures RoundsOfBatch(s, c) == s.calls[c].nums
  {
    assert CallOk(chain, s.heap, s.calls[c]);
    forall i | 0 <= i < |s.calls[c].slots| ensures RoundsOfBatch(s, c)[i] == s.calls[c].nums[i] {
      SlotInvariant(chain, s, c, i);
    }
  }

  /** A step of the call keeps what is promised and yet to be asked for, or dooms the call. */
  lemma StepKeepsPromises(chain: Chain, s: State, step: Step, c: nat, r: nat)
    requires Consistent(chain) && Inv(chain, s) && Bounded(s) && Enabled(s, step) && c < |s.calls|
    requires step.RoundReported? || CallOf(step) == Some(c)
    ensures var s' := Apply(chain, s, step);
      && Bounded(s') && |s'.calls| == |s.calls| && s'.calls[c].nums == s.calls[c].nums
      && (forall d :: 0 <= d < |s.calls| && d != c ==> s'.calls[d] == s.calls[d])
      && (Doomed(s'.calls[c])
        || Promised(s', r) + YetToAsk(s'.calls[c], r) == Promised(s, r) + YetToAsk(s.calls[c], r))
  {
    var s' := Apply(chain, s, step);
    StepConserves(chain, s, step, r);
    if step.Link? {
      GatheredRounds(chain, s, c);
      AheadCounts(s.calls[c].nums, r);
    }
    if step.SuccessorFails? {
      assert FailedTask(s'.calls[c].slots[step.i].task);
    }
  }

  lemma {:induction false} TraceKeepsPromises(chain: Chain, s: State, steps: seq<Step>, c: nat, r: nat)
    requires Consistent(chain) && Inv(chain, s) && Possible(chain, s, steps)
    requires c < |s.calls| && Alone(steps, c)
    requires c < |Reached(chain, s, steps).calls| && Reached(chain, s, steps).calls[c].status == Returned
    ensures var t := Reached(chain, s, steps);
      && Bounded(t) && Bounded(s) && |t.calls| == |s.calls| && t.calls[c].nums == s.calls[c].nums
      && (forall d :: 0 <= d < |s.calls| && d != c ==> t.calls[d] == s.calls[d])
      && Promised(t, r) == Promised(s, r) + YetToAsk(s.calls[c], r)
    decreases |steps|
  {
    InvBounded(chain, s);
    if steps != [] {
      var s' := Apply(chain, s, steps[0]);
      StepKeepsInv(chain, s, steps[0]);
      StepKeepsPromises(chain, s, steps[0], c, r);
      assert forall k :: 0 <= k < |steps[1..]| ==> steps[1..][k] == steps[k + 1];
      if Doomed(s'.calls[c]) {
        DoomedNeverReturns(chain, s', steps[1..], c);
      } else {
        TraceKeepsPromises(chain, s', steps[1..], c, r);
      }
    }
  }

  /** Over any steps, what is cached or held grows by exactly what is fetched; block data stays. */
  lemma {:induction false} TraceHolds(chain: Chain, s: State, steps: seq<Step>, r: nat)
    requires Consistent(chain) && Inv(chain, s) && Possible(chain, s, steps)
    ensures var t := Reached(chain, s, steps);
      && Bounded(t) && Bounded(s) && SameData(s.heap, t.heap)
      && Held(t, r) + Occurs(FetchedRounds(s.heap), r) == Held(s, r) + Occurs(FetchedRounds(t.heap), r)
    decreases |steps|
  {
    InvBounded(chain, s);
    if steps != [] {
      var s' := Apply(chain, s, steps[0]);
      StepKeepsInv(chain, s, steps[0]);
      StepHolds(chain, s, steps[0], r);
      StepExtends(chain, s, steps[0]);
      assert SameData(s.heap, s'.heap);
      TraceHolds(chain, s', steps[1..], r);
    }
  }

  /** A returned call holds its batch. */
  lemma {:induction false} ReturnedHolds(chain: Chain, heap: seq<Cell>, nums: seq<nat>, slots: seq<Slot>, r: nat)
    requires Consistent(chain) && |slots| == |nums|
    requires forall i :: 0 <= i < |slots| ==> SlotOk(chain, heap, nums[i], slots[i], Returned)
    ensures Sum(slots, SlotHolds(heap, r)) == Occurs(nums, r)
  {
    if slots != [] {
      assert SlotOk(chain, heap, nums[0], slots[0], Returned);
      ReturnedHolds(chain, heap, nums[1..], slots[1..], r);
    }
  }

  /** A state in which a call that ran alone has returned. */
  ghost predicate ReturnedAlone(chain: Chain, s: State, nums: seq<nat>, steps: seq<Step>)
    requires Bounded(s)
  {
    var u := Apply(chain, s, Start(nums));
    && Possible(chain, u, steps) && Alone(steps, |s.calls|)
    && var t := Reached(chain, u, steps);
      |s.calls| < |t.calls| && t.calls[|s.calls|].status == Returned
  }

  /** Once it has, nothing is under way, and only its own call is new. */
  lemma AloneSettles(chain: Chain, s: State, nums: seq<nat>, steps: seq<Step>, r: nat)
    requires Consistent(chain) && Inv(chain, s) && Bounded(s) && AllSettled(s)
    requires ReturnedAlone(chain, s, nums, steps)
    ensures var t := Reached(chain, Apply(chain, s, Start(nums)), steps);
      && Inv(chain, t) && Bounded(t)
      && t.calls == s.calls + [t.calls[|s.calls|]] && t.calls[|s.calls|].nums == nums
      && Occurs(RoundsOf(t.heap, t.cache), r)
         == Left(Occurs(RoundsOf(s.heap, s.cache), r), Occurs(nums, r)) + AheadCount(nums, r)
  {
    var c, u := |s.calls|, Apply(chain, s, Start(nums));
    var t := Reached(chain, u, steps);
    StepConserves(chain, s, Start(nums), r);
    StepKeepsInv(chain, s, Start(nums));
    TraceKeepsInv(chain, u, steps);
    TraceKeepsPromises(chain, u, steps, c, r);
    forall d: nat, i: nat | HasSlot(t, d, i)
      ensures SlotAt(t, d, i).task != AwaitSuccessor && !SlotAt(t, d, i).task.Fetched?
    {
      SlotInvariant(chain, t, d, i);
      assert d < c ==> Settled(s.calls[d]) && t.calls[d] == s.calls[d];
    }
    NothingUnderWay(t, r);
    forall d: nat, i: nat | HasSlot(s, d, i)
      ensures SlotAt(s, d, i).task != AwaitSuccessor && !SlotAt(s, d, i).task.Fetched?
    {
      assert Settled(s.calls[d]);
    }
    NothingUnderWay(s, r);
  }

  /**
   * Exact accounting under every interleaving: whatever the order in which the fetches of a call
   * that runs alone arrive, it leaves in the cache and has fetched what the account says.
   */
  lemma AloneAccounting(chain: Chain, s: State, nums: seq<nat>, steps: seq<Step>, r: nat)
    requires Consistent(chain) && Inv(chain, s) && Bounded(s) && AllSettled(s)
    requires ReturnedAlone(chain, s, nums, steps)
    ensures var t := Reached(chain, Apply(chain, s, Start(nums)), steps);
      var a := FetchAccount(RoundsOf(s.heap, s.cache), nums);
      && Bounded(t)
      && Occurs(RoundsOf(t.heap, t.cache), r) == Occurs(a.cache, r)
      && Occurs(FetchedRounds(t.heap), r) == Occurs(FetchedRounds(s.heap), r) + Occurs(a.fetched, r)
  {
    var c, u := |s.calls|, Apply(chain, s, Start(nums));
    var t := Reached(chain, u, steps);
    ExactAccounting(RoundsOf(s.heap, s.cache), nums, r);
    AloneSettles(chain, s, nums, steps, r);
    StepKeepsInv(chain, s, Start(nums));
    StepHolds(chain, s, Start(nums), r);
    TraceHolds(chain, u, steps, r);
    forall d, i | HasSlot(s, d, i)
      ensures SlotHolds(s.heap, r)(SlotAt(s, d, i)) == SlotHolds(t.heap, r)(SlotAt(s, d, i))
    {
      BoundedSlot(s, d, i);
    }
    SlotSumsAgree(s.calls, SlotHolds(s.heap, r), SlotHolds(t.heap, r));
    SumAppend(s.calls, t.calls[c], PerCall(SlotHolds(t.heap, r)));
    assert CallOk(chain, t.heap, t.calls[c]);
    ReturnedHolds(chain, t.heap, nums, t.calls[c].slots, r);
  }

  // ----- Calls can return -----

  predicate GoodStep(step: Step) {
    || step.Link? || step.Return?
    || step.BlockArrives? || step.SuccessorArrives? || step.Push? || step.AssignHash?
  }

  /** The next step of a call towards its return. */
  lemma NextGoodStep(chain: Chain, s: State, c: nat) returns (step: Step)
    requires Inv(chain, s) && Bounded(s) && c < |s.calls|
    requires !Doomed(s.calls[c]) && s.calls[c].status != Returned
    ensures Enabled(s, step) && CallOf(step) == Some(c)
    ensures GoodStep(step)
  {
    var call := s.calls[c];
    if call.status == Gathering {
      if Gathered(call) {
        step := Link(c);
      } else {
        var i :| 0 <= i < |call.slots| && call.slots[i].block == None;
        SlotInvariant(chain, s, c, i);
        step := BlockArrives(c, i);
      }
    } else if AllAssigned(call) {
      step := Return(c);
    } else {
      var i :| 0 <= i < |call.slots| && call.slots[i].task != Assigned;
      SlotInvariant(chain, s, c, i);
      assert !FailedTask(call.slots[i].task);
      match call.slots[i].task
      case AwaitSuccessor => step := SuccessorArrives(c, i);
      case Fetched(_) => step := Push(c, i);
      case Known(_) => step := AssignHash(c, i);
    }
  }

  lemma GoodStepIsGood(chain: Chain, s: State, step: Step, c: nat)
    requires Inv(chain, s) && Bounded(s) && Enabled(s, step) && c < |s.calls| && !Doomed(s.calls[c])
    requires CallOf(step) == Some(c)
    requires GoodStep(step)
    ensures c < |Apply(chain, s, step).calls| && !Doomed(Apply(chain, s, step).calls[c]) && !IdlePoll(s, step)
  {
    var call, call' := s.calls[c], Apply(chain, s, step).calls[c];
    forall i | 0 <= i < |call'.slots| ensures !FailedTask(call'.slots[i].task) {
      assert !FailedTask(call.slots[i].task);
    }
  }

  /** In every reachable state, a call that has not returned and has no failed promise can still return. */
  lemma {:induction false} CanReturn(chain: Chain, s: State, c: nat) returns (steps: seq<Step>)
    requires Consistent(chain) && Inv(chain, s) && Bounded(s) && c < |s.calls| && !Doomed(s.calls[c])
    ensures Possible(chain, s, steps) && forall k :: 0 <= k < |steps| ==> CallOf(steps[k]) == Some(c)
    ensures c < |Reached(chain, s, steps).calls| && Reached(chain, s, steps).calls[c].status == Returned
    decreases Work(s.calls[c])
  {
    steps := [];
    if s.calls[c].status != Returned {
      var step := NextGoodStep(chain, s, c);
      var s' := Apply(chain, s, step);
      StepKeepsInv(chain, s, step);
      InvBounded(chain, s');
      GoodStepIsGood(chain, s, step, c);
      StepsUseUpWork(chain, s, step, c);
      var later := CanReturn(chain, s', c);
      steps := [step] + later;
      assert steps[1..] == later;
    }
  }

  /** So a call for any rounds can be made in any reachable state, and can run alone until it returns. */
  lemma AnyCallCanReturn(chain: Chain, run: seq<State>, k: nat, nums: seq<nat>) returns (steps: seq<Step>)
    requires Consistent(chain) && Run(chain, run) && k < |run|
    ensures Bounded(run[k]) && ReturnedAlone(chain, run[k], nums, steps)
  {
    var s := run[k];
    RunKeepsInv(chain, run, k);
    InvBounded(chain, s);
    var u := Apply(chain, s, Start(nums));
    StepKeepsInv(chain, s, Start(nums));
    InvBounded(chain, u);
    assert CallOk(chain, u.heap, u.calls[|s.calls|]);
    steps := CanReturn(chain, u, |s.calls|);
  }

  /** Every request that is under way can be answered, and can fail, whatever became of its call. */
  lemma RequestsAreOpen(chain: Chain, run: seq<State>, k: nat, c: nat, i: nat)
    requires Consistent(chain) && Run(chain, run) && k < |run| && HasSlot(run[k], c, i)
    ensures Bounded(run[k])
    ensures SlotAt(run[k], c, i) == Slot(None, Idle) ==>
      && Enabled(run[k], BlockArrives(c, i)) && Enabled(run[k], BlockFails(c, i))
      && Apply(chain, run[k], BlockFails(c, i)).calls[c].status == Rejected
    ensures SlotAt(run[k], c, i).task == AwaitSuccessor ==>
      && Enabled(run[k], SuccessorArrives(c, i)) && Enabled(run[k], SuccessorFails(c, i))
      && SlotAt(Apply(chain, run[k], SuccessorFails(c, i)), c, i).task == Probing
    ensures SlotAt(run[k], c, i).task == Probing || SlotAt(run[k], c, i).task == Polling ==>
      && Enabled(run[k], HealthReport(c, i)) && Enabled(run[k], HealthFails(c, i))
      && Apply(chain, run[k], HealthFails(c, i)).calls[c].status == Rejected
  {
    RunKeepsInv(chain, run, k);
    InvBounded(chain, run[k]);
    SlotInvariant(chain, run[k], c, i);
  }
}
