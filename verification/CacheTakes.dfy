/** `blockInCache`, called for each requested round in turn before anything is awaited. */
module CacheTakes {
  import opened Values
  import opened Blocks
  import opened References

  /** The rounds of what is cached, whatever stands for a block. */
  function RoundsBy<T>(roundOf: T -> nat, cache: seq<T>): seq<nat> {
    seq(|cache|, k requires 0 <= k < |cache| => roundOf(cache[k]))
  }

  /** The first cached block of a round. */
  function FirstBlock<T>(roundOf: T -> nat, cache: seq<T>, num: nat): Option<T> {
    match FirstAt(RoundsBy(roundOf, cache), num)
    case None => None
    case Some(k) => Some(cache[k])
  }

  /** What is left of the cache once a round has taken its block. */
  function AfterTake<T>(roundOf: T -> nat, cache: seq<T>, num: nat): seq<T> {
    match FirstAt(RoundsBy(roundOf, cache), num)
    case None => cache
    case Some(k) => Without(cache, k)
  }

  datatype Taken<T> = Taken(cache: seq<T>, taken: seq<Option<T>>)

  /** Each round in turn takes its first cached block. */
  function Take<T>(roundOf: T -> nat, cache: seq<T>, nums: seq<nat>): (t: Taken<T>)
    ensures |t.taken| == |nums|
  {
    if nums == [] then Taken(cache, [])
    else
      var rest := Take(roundOf, AfterTake(roundOf, cache, nums[0]), nums[1..]);
      Taken(rest.cache, [FirstBlock(roundOf, cache, nums[0])] + rest.taken)
  }

  /** The rounds whose block was not cached. */
  function Missing<T>(nums: seq<nat>, taken: seq<Option<T>>): seq<nat>
    requires |nums| == |taken|
  {
    if nums == [] then []
    else if taken[0].Some? then Missing(nums[1..], taken[1..])
    else [nums[0]] + Missing(nums[1..], taken[1..])
  }

  lemma WithoutRounds<T>(roundOf: T -> nat, cache: seq<T>, k: nat)
    requires k < |cache|
    ensures RoundsBy(roundOf, Without(cache, k)) == Without(RoundsBy(roundOf, cache), k)
  {
  }

  /** Taking depends on the rounds alone, not on what stands for the blocks. */
  lemma {:induction false} TakeIsByRound<T, U>(
    f: T -> nat, cache: seq<T>, g: U -> nat, cache': seq<U>, nums: seq<nat>)
    requires RoundsBy(f, cache) == RoundsBy(g, cache')
    ensures var t, u := Take(f, cache, nums), Take(g, cache', nums);
      RoundsBy(f, t.cache) == RoundsBy(g, u.cache) && Missing(nums, t.taken) == Missing(nums, u.taken)
  {
    if nums != [] {
      match FirstAt(RoundsBy(f, cache), nums[0]) {
        case None =>
        case Some(k) =>
          WithoutRounds(f, cache, k);
          WithoutRounds(g, cache', k);
      }
      TakeIsByRound(f, AfterTake(f, cache, nums[0]), g, AfterTake(g, cache', nums[0]), nums[1..]);
    }
  }

  /** A block taken has the round asked for, and was cached; the others stay. */
  lemma {:induction false} TakenWereCached<T>(roundOf: T -> nat, cache: seq<T>, nums: seq<nat>)
    ensures var t := Take(roundOf, cache, nums);
      && (forall i :: 0 <= i < |nums| && t.taken[i].Some? ==>
        t.taken[i].value in cache && roundOf(t.taken[i].value) == nums[i])
      && (forall b :: b in t.cache ==> b in cache)
  {
    if nums != [] {
      TakenWereCached(roundOf, AfterTake(roundOf, cache, nums[0]), nums[1..]);
    }
  }

  /** The value of a measure on a block, if there is one. */
  function IfAny<T>(f: T -> nat): Option<T> -> nat {
    (b: Option<T>) => if b.Some? then f(b.value) else 0
  }

  /** Taking loses and copies nothing: any measure is shared out between the cache and what is taken. */
  lemma {:induction false} TakeConserves<T>(roundOf: T -> nat, cache: seq<T>, nums: seq<nat>, f: T -> nat)
    ensures var t := Take(roundOf, cache, nums);
      Sum(t.cache, f) + Sum(t.taken, IfAny(f)) == Sum(cache, f)
  {
    if nums != [] {
      var t, rest := Take(roundOf, cache, nums), AfterTake(roundOf, cache, nums[0]);
      TakeConserves(roundOf, rest, nums[1..], f);
      assert t.taken[1..] == Take(roundOf, rest, nums[1..]).taken;
      match FirstAt(RoundsBy(roundOf, cache), nums[0])
      case None =>
      case Some(k) => SumWithout(cache, k, f);
    }
  }
}
