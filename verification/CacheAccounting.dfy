/** Which rounds an isolated successful `fetchBlocks` call fetches, and which it leaves cached. */
module CacheAccounting {
  import opened Blocks
  import opened References
  import opened CacheTakes

  /** Rounds left in the cache and rounds that had to be fetched, each in order. */
  datatype Account = Account(cache: seq<nat>, fetched: seq<nat>)

  function Itself(round: nat): nat {
    round
  }

  /** Each requested round takes its first cached block, or is fetched. */
  function TakeRounds(cache: seq<nat>, nums: seq<nat>): Account {
    var t := Take(Itself, cache, nums);
    Account(t.cache, Missing(nums, t.taken))
  }

  /** The account of a cache of anything is that of its rounds. */
  lemma TakeIsTakeRounds<T>(roundOf: T -> nat, cache: seq<T>, nums: seq<nat>)
    ensures var t := Take(roundOf, cache, nums);
      TakeRounds(RoundsBy(roundOf, cache), nums) == Account(RoundsBy(roundOf, t.cache), Missing(nums, t.taken))
  {
    var rounds := RoundsBy(roundOf, cache);
    RoundsOfRounds(rounds);
    TakeIsByRound(roundOf, cache, Itself, rounds, nums);
    RoundsOfRounds(Take(Itself, rounds, nums).cache);
  }

  lemma RoundsOfRounds(rounds: seq<nat>)
    ensures RoundsBy(Itself, rounds) == rounds
  {
    forall k | 0 <= k < |rounds| ensures RoundsBy(Itself, rounds)[k] == rounds[k] {
      assert RoundsBy(Itself, rounds)[k] == Itself(rounds[k]);
    }
  }

  lemma TakeRoundsUnfold(cache: seq<nat>, nums: seq<nat>)
    requires nums != []
    ensures TakeRounds(cache, nums) ==
      match FirstAt(cache, nums[0])
      case None => TakeRounds(cache, nums[1..]).(fetched := [nums[0]] + TakeRounds(cache, nums[1..]).fetched)
      case Some(k) => TakeRounds(Without(cache, k), nums[1..])
  {
    RoundsOfRounds(cache);
    var t := Take(Itself, cache, nums);
    assert t.taken[1..] == Take(Itself, AfterTake(Itself, cache, nums[0]), nums[1..]).taken;
  }

  function RoundSet(nums: seq<nat>): set<nat> {
    set r | r in nums
  }

  /** The look-ahead of one round: none if the batch holds the next round. */
  function Ahead(num: nat, batch: set<nat>): seq<nat> {
    if num + 1 in batch then [] else [num + 1]
  }

  /** The look-ahead rounds for `nums` when the whole batch is `batch`. */
  function Lookahead(nums: seq<nat>, batch: set<nat>): seq<nat> {
    if nums == [] then [] else Ahead(nums[0], batch) + Lookahead(nums[1..], batch)
  }

  function FetchAccount(cache: seq<nat>, nums: seq<nat>): Account {
    var t := TakeRounds(cache, nums);
    var ahead := Lookahead(nums, RoundSet(nums));
    Account(t.cache + ahead, t.fetched + ahead)
  }

  /** A round and its look-ahead: as often as it is asked for, unless the batch holds its successor. */
  lemma {:induction false} LookaheadCounts(nums: seq<nat>, batch: set<nat>, r: nat)
    ensures Occurs(Lookahead(nums, batch), r + 1) == if r + 1 in batch then 0 else Occurs(nums, r)
    ensures Occurs(Lookahead(nums, batch), 0) == 0
  {
    if nums != [] {
      LookaheadCounts(nums[1..], batch, r);
      if nums[0] + 1 in batch {
        assert Lookahead(nums, batch) == Lookahead(nums[1..], batch);
      }
    }
  }

  /** How much of a count is left when another is taken away. */
  function Left(m: nat, n: nat): nat {
    if m <= n then 0 else m - n
  }

  /** Taking removes from the cache, and from the fetch list, the smaller of the two counts. */
  lemma {:induction false} TakeCounts(cache: seq<nat>, nums: seq<nat>, r: nat)
    ensures Occurs(TakeRounds(cache, nums).cache, r) == Left(Occurs(cache, r), Occurs(nums, r))
    ensures Occurs(TakeRounds(cache, nums).fetched, r) == Left(Occurs(nums, r), Occurs(cache, r))
  {
    if nums != [] {
      TakeRoundsUnfold(cache, nums);
      match FirstAt(cache, nums[0]) {
        case None =>
          TakeCounts(cache, nums[1..], r);
          FirstAtIsFirst(cache, nums[0]);
          OccursMember(cache, nums[0]);
        case Some(k) =>
          TakeCounts(Without(cache, k), nums[1..], r);
          SumWithout(cache, k, Is(r));
      }
    }
  }

  /** How often a round is looked ahead to by a whole batch. */
  function AheadCount(nums: seq<nat>, r: nat): nat {
    if r == 0 || r in RoundSet(nums) then 0 else Occurs(nums, r - 1)
  }

  lemma AheadCounts(nums: seq<nat>, r: nat)
    ensures Occurs(Lookahead(nums, RoundSet(nums)), r) == AheadCount(nums, r)
  {
    LookaheadCounts(nums, RoundSet(nums), if r == 0 then 0 else r - 1);
  }

  /** Exact accounting, for any batch with duplicates or gaps and any cache. */
  lemma ExactAccounting(cache: seq<nat>, nums: seq<nat>, r: nat)
    ensures Occurs(FetchAccount(cache, nums).cache, r)
         == Left(Occurs(cache, r), Occurs(nums, r)) + AheadCount(nums, r)
    ensures Occurs(FetchAccount(cache, nums).fetched, r)
         == Left(Occurs(nums, r), Occurs(cache, r)) + AheadCount(nums, r)
  {
    var t, ahead := TakeRounds(cache, nums), Lookahead(nums, RoundSet(nums));
    assert FetchAccount(cache, nums) == Account(t.cache + ahead, t.fetched + ahead);
    OccursConcat(t.cache, ahead, r);
    OccursConcat(t.fetched, ahead, r);
    AheadCounts(nums, r);
    TakeCounts(cache, nums, r);
  }

  // ----- Contiguous batches -----

  /** `s` is the run of rounds that starts at `a`. */
  predicate Contiguous(s: seq<nat>, a: nat) {
    forall i :: 0 <= i < |s| ==> s[i] == a + i
  }

  lemma {:induction false} TakeFromEmpty(nums: seq<nat>)
    ensures TakeRounds([], nums) == Account([], nums)
  {
    if nums != [] {
      TakeRoundsUnfold([], nums);
      TakeFromEmpty(nums[1..]);
    }
  }

  lemma TakeOnlyCached(nums: seq<nat>)
    requires nums != []
    ensures TakeRounds([nums[0]], nums) == Account([], nums[1..])
  {
    assert Without([nums[0]], 0) == [];
    TakeRoundsUnfold([nums[0]], nums);
    TakeFromEmpty(nums[1..]);
  }

  /** In a contiguous batch only the last round needs a look-ahead. */
  lemma {:induction false} LookaheadOfRange(nums: seq<nat>, a: nat, k: nat)
    requires Contiguous(nums, a) && k < |nums|
    ensures Lookahead(nums[k..], RoundSet(nums)) == [a + |nums|]
    decreases |nums| - k
  {
    assert nums[k..][0] == a + k && nums[k..][1..] == nums[k + 1..];
    if k + 1 < |nums| {
      assert nums[k + 1] == a + k + 1;
      LookaheadOfRange(nums, a, k + 1);
    }
  }

  /** A contiguous batch, with at most its first block cached, leaves just the block after it. */
  lemma BatchAccount(cache: seq<nat>, nums: seq<nat>, a: nat)
    requires Contiguous(nums, a) && nums != [] && (cache == [] || cache == [a])
    ensures FetchAccount(cache, nums) == Account([a + |nums|], nums[|cache|..] + [a + |nums|])
  {
    assert nums[0..] == nums;
    LookaheadOfRange(nums, a, 0);
    if cache == [] {
      TakeFromEmpty(nums);
    } else {
      TakeOnlyCached(nums);
    }
  }

  /** Successful calls one after the other, each with the account `fetch` gives. */
  function FetchAll(fetch: (seq<nat>, seq<nat>) -> Account, cache: seq<nat>, batches: seq<seq<nat>>): Account
    decreases |batches|
  {
    if batches == [] then Account(cache, [])
    else
      var first := fetch(cache, batches[0]);
      var rest := FetchAll(fetch, first.cache, batches[1..]);
      Account(rest.cache, first.fetched + rest.fetched)
  }

  /** Non-empty batches that cover `[a, b)` in order. */
  predicate Cover(batches: seq<seq<nat>>, a: nat, b: nat)
    decreases |batches|
  {
    if batches == [] then a == b
    else batches[0] != [] && Contiguous(batches[0], a) && Cover(batches[1..], a + |batches[0]|, b)
  }

  /** What `BatchAccount` shows of one call. */
  ghost predicate LeavesNext(fetch: (seq<nat>, seq<nat>) -> Account) {
    forall nums: seq<nat>, a: nat :: Contiguous(nums, a) && nums != [] ==>
      && fetch([], nums) == Account([a + |nums|], nums + [a + |nums|])
      && fetch([a], nums) == Account([a + |nums|], nums[1..] + [a + |nums|])
  }

  lemma CallsLeaveNext()
    ensures LeavesNext(FetchAccount)
  {
    forall nums: seq<nat>, a: nat | Contiguous(nums, a) && nums != []
      ensures FetchAccount([], nums) == Account([a + |nums|], nums + [a + |nums|])
      ensures FetchAccount([a], nums) == Account([a + |nums|], nums[1..] + [a + |nums|])
    {
      BatchAccount([], nums, a);
      BatchAccount([a], nums, a);
      assert nums[0..] == nums;
    }
  }

  /** Once the block `a` is cached, each later round is fetched once. */
  lemma {:induction false} LaterFetches(
    fetch: (seq<nat>, seq<nat>) -> Account, batches: seq<seq<nat>>, a: nat, b: nat)
    requires LeavesNext(fetch) && Cover(batches, a, b)
    ensures FetchAll(fetch, [a], batches).cache == [b]
    ensures Contiguous(FetchAll(fetch, [a], batches).fetched, a + 1)
    ensures a + |FetchAll(fetch, [a], batches).fetched| == b
    decreases |batches|
  {
    if batches != [] {
      LaterFetches(fetch, batches[1..], a + |batches[0]|, b);
    }
  }

  /**
   * From an empty cache, however `[a, b)` is cut into batches, the rounds fetched are exactly
   * `a` to `b`, once each and in order, and the cache is left with just the block `b`.
   */
  lemma AmortisedFetches(batches: seq<seq<nat>>, a: nat, b: nat)
    requires Cover(batches, a, b) && batches != []
    ensures FetchAll(FetchAccount, [], batches).cache == [b]
    ensures Contiguous(FetchAll(FetchAccount, [], batches).fetched, a)
    ensures a + |FetchAll(FetchAccount, [], batches).fetched| == b + 1
  {
    CallsLeaveNext();
    FirstAndLater(FetchAccount, batches, a, b);
  }

  lemma FirstAndLater(fetch: (seq<nat>, seq<nat>) -> Account, batches: seq<seq<nat>>, a: nat, b: nat)
    requires LeavesNext(fetch) && Cover(batches, a, b) && batches != []
    ensures FetchAll(fetch, [], batches).cache == [b]
    ensures Contiguous(FetchAll(fetch, [], batches).fetched, a)
    ensures a + |FetchAll(fetch, [], batches).fetched| == b + 1
  {
    LaterFetches(fetch, batches[1..], a + |batches[0]|, b);
  }
}
