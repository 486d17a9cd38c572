/** Batches fetched one after the other, each in whatever order its fetches arrive. */
module FetchBatches {
  import opened Blocks
  import opened References
  import opened CacheAccounting
  import opened FetchProtocol
  import opened FetchConservation
  import opened FetchTraces

  /** A call for these rounds runs alone from one state to the other, and has returned. */
  ghost predicate CalledAlone(chain: Chain, s: State, nums: seq<nat>, t: State) {
    Bounded(s) && exists steps ::
      ReturnedAlone(chain, s, nums, steps) && t == Reached(chain, Apply(chain, s, Start(nums)), steps)
  }

  /** No call is under way, and the cache holds just these rounds. */
  ghost predicate Between(chain: Chain, s: State, cached: seq<nat>) {
    Inv(chain, s) && Bounded(s) && AllSettled(s) && RoundsOf(s.heap, s.cache) == cached
  }

  function FetchCount(s: State, r: nat): nat {
    Occurs(FetchedRounds(s.heap), r)
  }

  predicate InRange(r: nat, from: nat, to: nat) {
    from <= r < to
  }

  lemma {:induction false} OccursInRange(s: seq<nat>, a: nat, r: nat)
    requires Contiguous(s, a)
    ensures Occurs(s, r) == if InRange(r, a, a + |s|) then 1 else 0
  {
    if s != [] {
      OccursInRange(s[1..], a + 1, r);
    }
  }

  /** A number counted once and no other is all there is. */
  lemma CountsOfOne(xs: seq<nat>, b: nat)
    requires forall r: nat :: Occurs(xs, r) == if r == b then 1 else 0
    ensures xs == [b]
  {
    assert Occurs(xs, b) == 1 && xs != [];
    OccursMember(xs, xs[0]);
    assert xs[0] == b && Occurs(xs[1..], b) == 0;
    if xs[1..] != [] {
      OccursMember(xs[1..], xs[1]);
      OccursMember(xs, xs[1]);
    }
  }

  lemma CallSettles(chain: Chain, s: State, nums: seq<nat>, t: State)
    requires Consistent(chain) && Inv(chain, s) && AllSettled(s) && CalledAlone(chain, s, nums, t)
    ensures Inv(chain, t) && Bounded(t) && AllSettled(t)
  {
    var steps :| ReturnedAlone(chain, s, nums, steps) && t == Reached(chain, Apply(chain, s, Start(nums)), steps);
    AloneSettles(chain, s, nums, steps, 0);
    forall d | 0 <= d < |t.calls| ensures Settled(t.calls[d]) {
      if d < |s.calls| {
        assert t.calls[d] == s.calls[d];
      } else {
        assert CallOk(chain, t.heap, t.calls[d]);
      }
    }
  }

  /** From one state to another, each round in the range is fetched once and no other is. */
  ghost predicate FetchedOnce(s: State, t: State, from: nat, to: nat) {
    forall r: nat :: FetchCount(t, r) == FetchCount(s, r) + if InRange(r, from, to) then 1 else 0
  }

  lemma FetchedInTurn(s: State, u: State, t: State, from: nat, mid: nat, to: nat)
    requires from <= mid <= to && FetchedOnce(s, u, from, mid) && FetchedOnce(u, t, mid, to)
    ensures FetchedOnce(s, t, from, to)
  {
    forall r: nat ensures FetchCount(t, r) == FetchCount(s, r) + if InRange(r, from, to) then 1 else 0 {
      assert FetchCount(u, r) == FetchCount(s, r) + if InRange(r, from, mid) then 1 else 0;
    }
  }

  /** The account of a contiguous batch, counted. */
  lemma BatchCounts(cached: seq<nat>, nums: seq<nat>, a: nat, r: nat)
    requires Contiguous(nums, a) && nums != [] && (cached == [] || cached == [a])
    ensures Occurs(FetchAccount(cached, nums).cache, r) == if r == a + |nums| then 1 else 0
    ensures Occurs(FetchAccount(cached, nums).fetched, r)
         == if InRange(r, a + |cached|, a + |nums| + 1) then 1 else 0
  {
    var b := a + |nums|;
    BatchAccount(cached, nums, a);
    OccursInRange([b], b, r);
    OccursInRange(nums[|cached|..] + [b], a + |cached|, r);
  }

  /** One batch: from an empty cache, or with just its first block cached. */
  lemma OneBatch(chain: Chain, s: State, cached: seq<nat>, nums: seq<nat>, t: State, a: nat)
    requires Consistent(chain) && Between(chain, s, cached) && (cached == [] || cached == [a])
    requires Contiguous(nums, a) && nums != [] && CalledAlone(chain, s, nums, t)
    ensures Between(chain, t, [a + |nums|]) && FetchedOnce(s, t, a + |cached|, a + |nums| + 1)
  {
    var steps :| ReturnedAlone(chain, s, nums, steps) && t == Reached(chain, Apply(chain, s, Start(nums)), steps);
    CallSettles(chain, s, nums, t);
    forall r: nat
      ensures Occurs(RoundsOf(t.heap, t.cache), r) == Occurs(FetchAccount(cached, nums).cache, r)
      ensures FetchCount(t, r) == FetchCount(s, r) + Occurs(FetchAccount(cached, nums).fetched, r)
    {
      AloneAccounting(chain, s, nums, steps, r);
    }
    CountsOfBatch(s, t, cached, nums, a);
  }

  lemma CountsOfBatch(s: State, t: State, cached: seq<nat>, nums: seq<nat>, a: nat)
    requires Contiguous(nums, a) && nums != [] && (cached == [] || cached == [a])
    requires forall r: nat :: Occurs(RoundsOf(t.heap, t.cache), r) == Occurs(FetchAccount(cached, nums).cache, r)
    requires forall r: nat :: FetchCount(t, r) == FetchCount(s, r) + Occurs(FetchAccount(cached, nums).fetched, r)
    ensures RoundsOf(t.heap, t.cache) == [a + |nums|]
    ensures FetchedOnce(s, t, a + |cached|, a + |nums| + 1)
  {
    forall r: nat
      ensures Occurs(RoundsOf(t.heap, t.cache), r) == if r == a + |nums| then 1 else 0
      ensures FetchCount(t, r) == FetchCount(s, r) + if InRange(r, a + |cached|, a + |nums| + 1) then 1 else 0
    {
      BatchCounts(cached, nums, a, r);
    }
    CountsOfOne(RoundsOf(t.heap, t.cache), a + |nums|);
  }

  /** One call after the other, each beginning where the last one ended. */
  ghost predicate InTurn(call: (State, seq<nat>, State) -> bool, states: seq<State>, batches: seq<seq<nat>>)
    decreases |batches|
  {
    && |states| == |batches| + 1
    && (batches != [] ==> call(states[0], batches[0], states[1]) && InTurn(call, states[1..], batches[1..]))
  }

  /** What `OneBatch` shows of a call: `ready` says what is cached before and after it. */
  ghost predicate Advances(call: (State, seq<nat>, State) -> bool, ready: (State, seq<nat>) -> bool) {
    forall s, nums, t, cached, a: nat {:trigger call(s, nums, t), ready(s, cached), Contiguous(nums, a)} ::
      call(s, nums, t) && ready(s, cached) && Contiguous(nums, a) && nums != [] && (cached == [] || cached == [a]) ==>
        ready(t, [a + |nums|]) && FetchedOnce(s, t, a + |cached|, a + |nums| + 1)
  }

  /** Batches that cover `[a, b)`, with nothing or just the block `a` cached before them. */
  lemma {:induction false} BatchesInTurn(
    call: (State, seq<nat>, State) -> bool, ready: (State, seq<nat>) -> bool,
    states: seq<State>, batches: seq<seq<nat>>, cached: seq<nat>, a: nat, b: nat)
    requires Advances(call, ready) && InTurn(call, states, batches)
    requires ready(states[0], cached) && (cached == [] || cached == [a])
    requires Cover(batches, a, b) && batches != []
    ensures ready(states[|batches|], [b]) && FetchedOnce(states[0], states[|batches|], a + |cached|, b + 1)
    decreases |batches|
  {
    var mid := a + |batches[0]|;
    if batches[1..] != [] {
      BatchesInTurn(call, ready, states[1..], batches[1..], [mid], mid, b);
      CoverIsOrdered(batches[1..], mid, b);
      FetchedInTurn(states[0], states[1], states[|batches|], a + |cached|, mid + 1, b + 1);
    }
  }

  lemma {:induction false} CoverIsOrdered(batches: seq<seq<nat>>, a: nat, b: nat)
    requires Cover(batches, a, b)
    ensures a <= b
    decreases |batches|
  {
    if batches != [] {
      CoverIsOrdered(batches[1..], a + |batches[0]|, b);
    }
  }

  ghost function Calls(chain: Chain): (State, seq<nat>, State) -> bool {
    (s, nums, t) => CalledAlone(chain, s, nums, t)
  }

  ghost function Ready(chain: Chain): (State, seq<nat>) -> bool {
    (s, cached) => Between(chain, s, cached)
  }

  lemma CallsAdvance(chain: Chain)
    requires Consistent(chain)
    ensures Advances(Calls(chain), Ready(chain))
  {
    var call, ready := Calls(chain), Ready(chain);
    forall s, nums, t, cached, a: nat {:trigger call(s, nums, t), ready(s, cached), Contiguous(nums, a)} |
      call(s, nums, t) && ready(s, cached) && Contiguous(nums, a) && nums != [] && (cached == [] || cached == [a])
      ensures ready(t, [a + |nums|]) && FetchedOnce(s, t, a + |cached|, a + |nums| + 1)
    {
      OneBatch(chain, s, cached, nums, t, a);
    }
  }

  /**
   * From an empty cache, however `[a, b)` is cut into batches that are fetched in turn, and in
   * whatever order the fetches of each arrive: every round from `a` to `b` is fetched once, no
   * other is, and the cache is left with just the block `b`.
   */
  lemma BatchesFetchOnce(chain: Chain, states: seq<State>, batches: seq<seq<nat>>, a: nat, b: nat)
    requires Consistent(chain) && Cover(batches, a, b) && batches != []
    requires InTurn(Calls(chain), states, batches) && Between(chain, states[0], [])
    ensures Between(chain, states[|batches|], [b])
    ensures forall r: nat ::
      FetchCount(states[|batches|], r) == FetchCount(states[0], r) + if a <= r <= b then 1 else 0
  {
    CallsAdvance(chain);
    BatchesInTurn(Calls(chain), Ready(chain), states, batches, [], a, b);
    forall r: nat
      ensures FetchCount(states[|batches|], r) == FetchCount(states[0], r) + if a <= r <= b then 1 else 0
    {
      assert InRange(r, a, b + 1) <==> a <= r <= b;
    }
  }
}
