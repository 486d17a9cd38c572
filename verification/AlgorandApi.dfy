/** One `fetchBlocks` call on the api object, with its cache and block objects updated in place. */
module AlgorandApi {
  import opened Values
  import opened Blocks
  import opened References
  import opened CacheTakes
  import opened CacheAccounting

  /** A block object; `hash` is missing until `fetchBlocks` sets it. */
  class Block {
    const data: BlockData
    var hash: Option<string>

    constructor (data: BlockData)
      ensures this.data == data && hash == None
    {
      this.data := data;
      hash := None;
    }
  }

  function RoundOf(block: Block): nat {
    block.data.round
  }

  function Rounds(blocks: seq<Block>): (rounds: seq<nat>)
    ensures |rounds| == |blocks| && forall i :: 0 <= i < |blocks| ==> rounds[i] == blocks[i].data.round
  {
    RoundsBy(RoundOf, blocks)
  }

  function Datas(blocks: seq<Block>): seq<BlockData> {
    seq(|blocks|, i requires 0 <= i < |blocks| => blocks[i].data)
  }

  predicate NoRepeats(blocks: seq<Block>) {
    forall i, j :: 0 <= i < j < |blocks| ==> blocks[i] != blocks[j]
  }

  /** One of the health checks from number `from` on fails, or reports the next round. */
  ghost predicate WaitEnds(health: nat -> Option<nat>, round: nat, from: nat) {
    exists k: nat :: from <= k && (health(k).Some? ==> health(k).value >= round + 1)
  }

  /** These health checks are answered, and report no round as high as the next. */
  ghost predicate Behind(health: nat -> Option<nat>, round: nat, from: nat, to: int) {
    forall k :: from <= k < to ==> health(k).Some? && health(k).value < round + 1
  }

  predicate Reports(health: nat -> Option<nat>, k: nat, round: nat) {
    health(k).Some? && health(k).value >= round + 1
  }

  /** How the failure path ends: the last of the health checks from `from` up to `to` decides. */
  ghost predicate GaveUp(health: nat -> Option<nat>, e: Error, round: nat, from: nat, to: nat) {
    && from < to && Behind(health, round, from, to - 1)
    && match e
      case LookupFailed => to == from + 1 && Reports(health, from, round)  // rethrown
      case NoBlockHash(n) => n == round && from + 1 < to && Reports(health, to - 1, round)  // waited
      case HealthCheckFailed => health(to - 1) == None
      case _ => false
  }

  /** Every health check is answered, and the report grows by at least one in every `per` of them. */
  ghost predicate AdvancesEvery(health: nat -> Option<nat>, per: nat) {
    forall k: nat :: AdvancesAt(health, per, k)
  }

  predicate AdvancesAt(health: nat -> Option<nat>, per: nat, k: nat) {
    health(k).Some? && health(k + per).Some? && health(k + per).value >= health(k).value + 1
  }

  lemma {:induction false} ReportAfter(health: nat -> Option<nat>, per: nat, from: nat, steps: nat)
    requires AdvancesEvery(health, per)
    ensures health(from).Some? && health(from + per * steps).Some?
    ensures health(from + per * steps).value >= health(from).value + steps
  {
    if steps == 0 {
      assert AdvancesAt(health, per, from);
    } else {
      ReportAfter(health, per, from, steps - 1);
      var k := from + per * (steps - 1);
      assert from + per * steps == k + per;
      assert AdvancesAt(health, per, k);
    }
  }

  /** The wait is short: the polls after the first report are bounded by the rounds it is behind. */
  lemma PollsAreBounded(health: nat -> Option<nat>, per: nat, round: nat, from: nat, to: nat)
    requires AdvancesEvery(health, per) && GaveUp(health, NoBlockHash(round), round, from, to)
    ensures health(from).Some? && health(from).value <= round
    ensures to - 1 - from <= per * (round + 1 - health(from).value)
  {
    assert AdvancesAt(health, per, from) && health(from).value < round + 1;
    ReportAfter(health, per, from, round + 1 - health(from).value);
  }

  /** The remote indexer: it may leave any request unanswered, and otherwise answers from the chain. */
  class Indexer {
    const chain: Chain
    const answers: nat -> bool         // is the k-th lookup answered?
    const health: nat -> Option<nat>   // the round the k-th health check reports, if it is answered
    var checks: nat                    // health checks made so far
    var lookups: seq<nat>              // rounds asked for so far

    method LookupBlock(round: nat) returns (r: Result<BlockData>)
      modifies this`lookups
      ensures lookups == old(lookups) + [round]
      ensures r == if answers(old(|lookups|)) then Ok(chain(round)) else Err(LookupFailed)
    {
      r := if answers(|lookups|) then Ok(chain(round)) else Err(LookupFailed);
      lookups := lookups + [round];
    }

    method MakeHealthCheck() returns (r: Result<nat>)
      modifies this`checks
      ensures checks == old(checks) + 1
      ensures r == if health(old(checks)).Some? then Ok(health(old(checks)).value) else Err(HealthCheckFailed)
    {
      r := if health(checks).Some? then Ok(health(checks).value) else Err(HealthCheckFailed);
      checks := checks + 1;
    }
  }

  predicate Answered(answers: nat -> bool, from: nat, to: int) {
    forall k :: from <= k < to ==> answers(k)
  }

  /** The lookups `planned` are made in order, up to the first that is not answered. */
  ghost predicate Requested(answers: nat -> bool, before: seq<nat>, planned: seq<nat>, after: seq<nat>, ok: bool) {
    if ok then after == before + planned && Answered(answers, |before|, |after|)
    else StoppedAt(answers, before, planned, after)
  }

  ghost predicate StoppedAt(answers: nat -> bool, before: seq<nat>, planned: seq<nat>, after: seq<nat>) {
    && |before| < |after| && before <= after && after <= before + planned
    && !answers(|after| - 1) && Answered(answers, |before|, |after| - 1)
  }

  lemma RequestedThen(
    answers: nat -> bool, before: seq<nat>, first: seq<nat>, mid: seq<nat>, later: seq<nat>, after: seq<nat>, ok: bool)
    requires Requested(answers, before, first, mid, true) && Requested(answers, mid, later, after, ok)
    ensures Requested(answers, before, first + later, after, ok)
  {
    assert before + (first + later) == before + first + later;
  }

  /** All lookups planned are made exactly when all of them are answered. */
  lemma RequestedIff(answers: nat -> bool, before: seq<nat>, planned: seq<nat>, after: seq<nat>, ok: bool)
    requires Requested(answers, before, planned, after, ok)
    ensures ok <==> Answered(answers, |before|, |before| + |planned|)
    ensures |after| <= |before| + |planned|
  {
  }

  /** The lookups of a call: first for the batch, then for the look-aheads. */
  lemma FetchRequests(answers: nat -> bool, cached: seq<nat>, nums: seq<nat>,
    before: seq<nat>, mid: seq<nat>, after: seq<nat>, ok: bool)
    requires Requested(answers, before, TakeRounds(cached, nums).fetched, mid, true)
    requires Requested(answers, mid, Lookahead(nums, RoundSet(nums)), after, ok)
    ensures Requested(answers, before, FetchAccount(cached, nums).fetched, after, ok)
    ensures ok <==> Answered(answers, |before|, |before| + |FetchAccount(cached, nums).fetched|)
  {
    RequestedThen(answers, before, TakeRounds(cached, nums).fetched, mid, Lookahead(nums, RoundSet(nums)), after, ok);
    RequestedIff(answers, before, FetchAccount(cached, nums).fetched, after, ok);
  }

  /** Or only for the batch, if one of those fails. */
  lemma BatchRequests(answers: nat -> bool, cached: seq<nat>, nums: seq<nat>, before: seq<nat>, after: seq<nat>)
    requires Requested(answers, before, TakeRounds(cached, nums).fetched, after, false)
    ensures Requested(answers, before, FetchAccount(cached, nums).fetched, after, false)
    ensures !Answered(answers, |before|, |before| + |FetchAccount(cached, nums).fetched|)
    ensures |after| <= |before| + |TakeRounds(cached, nums).fetched|
  {
    RequestedNoFurther(answers, before, TakeRounds(cached, nums).fetched, Lookahead(nums, RoundSet(nums)), after);
    RequestedIff(answers, before, FetchAccount(cached, nums).fetched, after, false);
  }

  lemma BetweenLookups(before: seq<nat>, planned: seq<nat>, last: nat)
    ensures var after := before + planned + [last];
      after[|before|..|after| - 1] == planned && after[|after| - 1] == last
  {
  }

  lemma RequestedNoFurther(
    answers: nat -> bool, before: seq<nat>, first: seq<nat>, later: seq<nat>, after: seq<nat>)
    requires Requested(answers, before, first, after, false)
    ensures Requested(answers, before, first + later, after, false)
  {
    assert before + (first + later) == before + first + later;
  }

  class Api {
    const indexer: Indexer
    var blockCache: seq<Block>

    constructor (indexer: Indexer)
      ensures Valid() && this.indexer == indexer && blockCache == []
    {
      this.indexer := indexer;
      blockCache := [];
    }

    /** Cached blocks are distinct objects, hold chain data, and have no hash yet. */
    ghost predicate Valid()
      reads this, blockCache
    {
      && NoRepeats(blockCache)
      && (forall b :: b in blockCache ==> b.hash == None && b.data == indexer.chain(b.data.round))
    }

    /** The node will report the rounds that the batch has to look ahead to. */
    ghost predicate WaitsEnd(blockNums: seq<nat>)
      reads this, indexer`checks
    {
      forall round :: round in blockNums && round + 1 !in blockNums ==>
        WaitEnds(indexer.health, round, indexer.checks)
    }

    /** `blockInCache`: takes the first cached block of a round out of the cache. */
    method BlockInCache(number: nat) returns (found: Option<Block>)
      modifies this`blockCache
      ensures found == FirstBlock(RoundOf, old(blockCache), number)
      ensures blockCache == AfterTake(RoundOf, old(blockCache), number)
    {
      for i := 0 to |blockCache|
        invariant blockCache == old(blockCache)
        invariant FirstAt(Rounds(blockCache), number) == Shifted(FirstAt(Rounds(blockCache)[i..], number), i)
      {
        if blockCache[i].data.round == number {
          found := Some(blockCache[i]);
          blockCache := blockCache[..i] + blockCache[i + 1..];
          return;
        }
        assert Rounds(blockCache)[i..][1..] == Rounds(blockCache)[i + 1..];
      }
      found := None;
    }

    /** `getBlockByHeight`: a new object each time. */
    method GetBlockByHeight(height: nat) returns (r: Result<Block>)
      modifies indexer`lookups
      ensures indexer.lookups == old(indexer.lookups) + [height]
      ensures r.Ok? <==> indexer.answers(old(|indexer.lookups|))
      ensures r.Err? ==> r == Err(LookupFailed)
      ensures r.Ok? ==> fresh(r.value) && r.value.data == indexer.chain(height) && r.value.hash == None
    {
      var info := indexer.LookupBlock(height);
      match info
      case Err(e) => r := Err(e);
      case Ok(data) =>
        var block := new Block(data);
        r := Ok(block);
    }

    /**
     * `getBlockHash`. The hash comes from the batch if it holds the next round; otherwise from a
     * fetch of the next round, which is then cached. If that fetch fails there is no hash: the
     * call rethrows when the node already reports the next round, and otherwise waits until it
     * does, and then throws all the same.
     */
    method GetBlockHash(round: nat, blocks: seq<Block>) returns (r: Result<string>)
      requires LinkInBatch(Datas(blocks), round) == None ==> WaitEnds(indexer.health, round, indexer.checks)
      modifies this`blockCache, indexer
      ensures r.Ok? ==> indexer.checks == old(indexer.checks)
      ensures LinkInBatch(Datas(blocks), round).Some? ==>
        && r == Ok(LinkInBatch(Datas(blocks), round).value)
        && blockCache == old(blockCache) && indexer.lookups == old(indexer.lookups)
      ensures LinkInBatch(Datas(blocks), round) == None ==>
        && indexer.lookups == old(indexer.lookups) + [round + 1]
        && (r.Ok? <==> indexer.answers(old(|indexer.lookups|)))
      ensures LinkInBatch(Datas(blocks), round) == None && r.Ok? ==>
        && r.value == indexer.chain(round + 1).previousBlockHash
        && |blockCache| > 0 && blockCache == old(blockCache) + [blockCache[|blockCache| - 1]]
        && fresh(blockCache[|blockCache| - 1])
        && blockCache[|blockCache| - 1].data == indexer.chain(round + 1)
        && blockCache[|blockCache| - 1].hash == None
      ensures r.Err? ==>
        blockCache == old(blockCache)
        && GaveUp(indexer.health, r.error, round, old(indexer.checks), indexer.checks)
    {
      for i := 0 to |blocks|
        invariant LinkInBatch(Datas(blocks), round) == LinkInBatch(Datas(blocks)[i..], round)
      {
        if blocks[i].data.round == round + 1 {
          return Ok(blocks[i].data.previousBlockHash);
        }
        assert Datas(blocks)[i..][1..] == Datas(blocks)[i + 1..];
      }
      var fetched := GetBlockByHeight(round + 1);
      if fetched.Ok? {
        blockCache := blockCache + [fetched.value];
        return Ok(fetched.value.data.previousBlockHash);
      }
      var error := GiveUp(round, fetched.error);
      return Err(error);
    }

    /** The `catch` of `getBlockHash`: what it throws, after a wait if the node is behind. */
    method GiveUp(round: nat, lookupError: Error) returns (error: Error)
      requires lookupError == LookupFailed && WaitEnds(indexer.health, round, indexer.checks)
      modifies indexer`checks
      ensures GaveUp(indexer.health, error, round, old(indexer.checks), indexer.checks)
    {
      var currentRound := indexer.MakeHealthCheck();
      if currentRound.Err? {
        return currentRound.error;
      }
      if currentRound.value >= round + 1 {
        return lookupError;
      }
      var waited := PollUntil(round, currentRound.value);
      return if waited.Err? then waited.error else NoBlockHash(round);
    }

    /** The polling loop: the first report that reaches the next round ends it. */
    method PollUntil(round: nat, firstReport: nat) returns (r: Result<()>)
      requires firstReport < round + 1
      requires WaitEnds(indexer.health, round, indexer.checks)
      modifies indexer`checks
      ensures old(indexer.checks) < indexer.checks
      ensures Behind(indexer.health, round, old(indexer.checks), indexer.checks - 1)
      ensures r.Ok? ==> Reports(indexer.health, indexer.checks - 1, round)
      ensures r.Err? ==> r.error == HealthCheckFailed && indexer.health(indexer.checks - 1) == None
    {
      var from := indexer.checks;
      ghost var last: nat :|
        from <= last && (indexer.health(last).Some? ==> indexer.health(last).value >= round + 1);
      var currentRound := firstReport;
      while currentRound < round + 1
        invariant from <= indexer.checks
        invariant currentRound < round + 1 ==> Behind(indexer.health, round, from, indexer.checks)
        invariant currentRound >= round + 1 ==>
          && from < indexer.checks && Reports(indexer.health, indexer.checks - 1, round)
          && Behind(indexer.health, round, from, indexer.checks - 1)
        decreases last + 1 - indexer.checks
      {
        currentRound :- indexer.MakeHealthCheck();
      }
      return Ok(());
    }

    /**
     * `fetchBlocks`, run alone: first every round takes its block out of the cache, then the
     * missing blocks are fetched, then each block gets its hash. It returns exactly when every
     * lookup it has to make is answered; otherwise the first that is not decides how it ends.
     */
    method FetchBlocks(blockNums: seq<nat>) returns (r: Result<seq<Block>>)
      requires Valid() && Consistent(indexer.chain) && WaitsEnd(blockNums)
      modifies this`blockCache, indexer, blockCache
      ensures Valid()
      ensures r.Ok? ==>
        && Delivers(r.value, Uncached(indexer.chain, blockNums))
        && NoRepeats(r.value) && (forall b :: b in r.value ==> b !in blockCache)
      ensures var a := FetchAccount(Rounds(old(blockCache)), blockNums);
        && Requested(indexer.answers, old(indexer.lookups), a.fetched, indexer.lookups, r.Ok?)
        && (r.Ok? <==> Answered(indexer.answers, old(|indexer.lookups|), old(|indexer.lookups|) + |a.fetched|))
        && (r.Ok? ==> Rounds(blockCache) == a.cache && indexer.checks == old(indexer.checks))
      ensures r.Err? ==>
        var t := TakeRounds(Rounds(old(blockCache)), blockNums);
        FetchFailed(t.cache, old(|indexer.lookups|) + |t.fetched|, r.error, old(indexer.checks))
      ensures forall b :: b in blockCache ==> b in old(blockCache) || fresh(b)
    {
      ghost var before, cached := indexer.lookups, Rounds(blockCache);
      var collected := Collect(blockNums);
      if collected.Err? {
        BatchRequests(indexer.answers, cached, blockNums, before, indexer.lookups);
        return collected;
      }
      ghost var mid := indexer.lookups;
      var blocks := collected.value;
      assert forall b :: b in blocks ==> b in old(blockCache) || fresh(b);
      r := Link(blockNums, blocks);
      FetchRequests(indexer.answers, cached, blockNums, before, mid, indexer.lookups, r.Ok?);
    }

    /**
     * What a failed call leaves behind, if lookup number `linking` is the first look-ahead: besides
     * what the takes left, the look-aheads before the one that failed are cached, and the error is
     * that of the lookup, or of the wait for the round it asked for.
     */
    ghost predicate FetchFailed(cached: seq<nat>, linking: nat, error: Error, checks: nat)
      reads this, blockCache, indexer
    {
      if |indexer.lookups| <= linking then
        error == LookupFailed && indexer.checks == checks && Rounds(blockCache) == cached
      else
        var last := |indexer.lookups| - 1;
        && Rounds(blockCache) == cached + indexer.lookups[linking..last]
        && indexer.lookups[last] > 0
        && GaveUp(indexer.health, error, indexer.lookups[last] - 1, checks, indexer.checks)
    }

    /** The first `Promise.all`: the batch, from the cache and from the node. */
    method Collect(blockNums: seq<nat>) returns (r: Result<seq<Block>>)
      requires Valid()
      modifies this`blockCache, indexer`lookups
      ensures Valid()
      ensures Rounds(blockCache) == TakeRounds(Rounds(old(blockCache)), blockNums).cache
      ensures forall b :: b in blockCache ==> b in old(blockCache)
      ensures r.Ok? ==>
        && ValidBatch(blockNums, r.value)
        && (forall b :: b in r.value ==> b in old(blockCache) || fresh(b))
      ensures r.Err? ==> r.error == LookupFailed
      ensures var fetched := TakeRounds(Rounds(old(blockCache)), blockNums).fetched;
        Requested(indexer.answers, old(indexer.lookups), fetched, indexer.lookups, r.Ok?)
    {
      TakeIsTakeRounds(RoundOf, blockCache, blockNums);
      TakenWereCached(RoundOf, blockCache, blockNums);
      TakeBlocksValid(indexer.chain, blockCache, blockNums);
      var taken := TakeFromCache(blockNums);
      r := Gather(blockNums, taken);
    }

    /** The synchronous part: all takes happen before anything is awaited. */
    method TakeFromCache(blockNums: seq<nat>) returns (taken: seq<Option<Block>>)
      modifies this`blockCache
      ensures Taken(blockCache, taken) == Take(RoundOf, old(blockCache), blockNums)
    {
      taken := [];
      for i := 0 to |blockNums|
        invariant Take(RoundOf, old(blockCache), blockNums).taken
               == taken + Take(RoundOf, blockCache, blockNums[i..]).taken
        invariant Take(RoundOf, old(blockCache), blockNums).cache
               == Take(RoundOf, blockCache, blockNums[i..]).cache
      {
        assert blockNums[i..][1..] == blockNums[i + 1..];
        ghost var before, found := blockCache, FirstBlock(RoundOf, blockCache, blockNums[i]);
        ghost var later := Take(RoundOf, AfterTake(RoundOf, before, blockNums[i]), blockNums[i + 1..]).taken;
        ConcatAssociative(taken, [found], later);
        var b := BlockInCache(blockNums[i]);
        taken := taken + [b];
      }
    }

    /** The batch: distinct uncached objects with the data asked for. */
    ghost predicate ValidBatch(nums: seq<nat>, blocks: seq<Block>)
      reads this
    {
      && |blocks| == |nums|
      && NoRepeats(blocks)
      && (forall i :: 0 <= i < |blocks| ==> blocks[i].data == indexer.chain(nums[i]))
      && (forall b :: b in blocks ==> b !in blockCache)
    }

    /** Fetches the blocks that were not cached. */
    method Gather(blockNums: seq<nat>, taken: seq<Option<Block>>) returns (r: Result<seq<Block>>)
      requires ValidTaken(indexer.chain, blockNums, blockCache, taken)
      modifies indexer`lookups
      ensures r.Ok? ==>
        ValidBatch(blockNums, r.value) && forall b :: b in r.value ==> Some(b) in taken || fresh(b)
      ensures r.Err? ==> r.error == LookupFailed
      ensures Requested(indexer.answers, old(indexer.lookups), Missing(blockNums, taken), indexer.lookups, r.Ok?)
    {
      var blocks := [];
      for i := 0 to |blockNums|
        invariant ValidBatch(blockNums[..i], blocks)
        invariant forall j :: 0 <= j < i ==> if taken[j].Some? then blocks[j] == taken[j].value else fresh(blocks[j])
        invariant Requested(
          indexer.answers, old(indexer.lookups), Missing(blockNums[..i], taken[..i]), indexer.lookups, true)
      {
        MissingSplits(blockNums, taken, i);
        match taken[i]
        case Some(b) => blocks := blocks + [b];
        case None =>
          var b := GetBlockByHeight(blockNums[i]);
          if b.Err? {
            RequestedNoFurther(indexer.answers, old(indexer.lookups), Missing(blockNums[..i + 1], taken[..i + 1]),
              Missing(blockNums[i + 1..], taken[i + 1..]), indexer.lookups);
            return Err(b.error);
          }
          blocks := blocks + [b.value];
      }
      assert blockNums[..|blockNums|] == blockNums && taken[..|taken|] == taken;
      return Ok(blocks);
    }

    /** One block of the batch gets its hash. */
    method LinkOne(blockNums: seq<nat>, blocks: seq<Block>, i: nat) returns (r: Result<()>)
      requires Valid() && Consistent(indexer.chain) && WaitsEnd(blockNums)
      requires ValidBatch(blockNums, blocks) && i < |blocks|
      modifies this`blockCache, indexer, blocks[i]
      ensures Valid() && ValidBatch(blockNums, blocks)
      ensures forall b :: b in blockCache ==> b in old(blockCache) || fresh(b)
      ensures r.Ok? ==>
        && blocks[i].hash == Some(HashOf(indexer.chain, blockNums[i]))
        && indexer.checks == old(indexer.checks)
        && Rounds(blockCache) == Rounds(old(blockCache)) + Ahead(blockNums[i], RoundSet(blockNums))
      ensures Requested(
        indexer.answers, old(indexer.lookups), Ahead(blockNums[i], RoundSet(blockNums)), indexer.lookups, r.Ok?)
      ensures r.Err? ==>
        && blockCache == old(blockCache) && indexer.lookups == old(indexer.lookups) + [blockNums[i] + 1]
        && GaveUp(indexer.health, r.error, blockNums[i], old(indexer.checks), indexer.checks)
    {
      var round := blocks[i].data.round;
      BatchLinks(blockNums, blocks, round);
      var hash :- GetBlockHash(round, blocks);
      blocks[i].hash := Some(hash);
      return Ok(());
    }

    lemma BatchLinks(blockNums: seq<nat>, blocks: seq<Block>, round: nat)
      requires ValidBatch(blockNums, blocks) && Consistent(indexer.chain)
      ensures LinkInBatch(Datas(blocks), round)
           == if round + 1 in blockNums then Some(HashOf(indexer.chain, round)) else None
    {
      var batch := Datas(blocks);
      assert forall j :: 0 <= j < |batch| ==> batch[j] == indexer.chain(blockNums[j]);
      LinkIsGenuine(indexer.chain, batch, round);
      if round + 1 in blockNums {
        var j :| 0 <= j < |blockNums| && blockNums[j] == round + 1;
        assert batch[j].round == round + 1;
      }
    }

    /** Gives each block of the batch its hash. */
    method Link(blockNums: seq<nat>, blocks: seq<Block>) returns (r: Result<seq<Block>>)
      requires Valid() && Consistent(indexer.chain) && WaitsEnd(blockNums)
      requires ValidBatch(blockNums, blocks)
      modifies this`blockCache, indexer, blocks
      ensures Valid()
      ensures forall b :: b in blockCache ==> b in old(blockCache) || fresh(b)
      ensures r.Ok? ==>
        && r.value == blocks && ValidBatch(blockNums, blocks)
        && Delivers(blocks, Uncached(indexer.chain, blockNums))
        && Rounds(blockCache) == Rounds(old(blockCache)) + Lookahead(blockNums, RoundSet(blockNums))
        && indexer.checks == old(indexer.checks)
      ensures var ahead := Lookahead(blockNums, RoundSet(blockNums));
        Requested(indexer.answers, old(indexer.lookups), ahead, indexer.lookups, r.Ok?)
      ensures r.Err? ==>
        FetchFailed(Rounds(old(blockCache)), old(|indexer.lookups|), r.error, old(indexer.checks))
    {
      for i := 0 to |blocks|
        invariant Valid() && ValidBatch(blockNums, blocks) && indexer.checks == old(indexer.checks)
        invariant forall b :: b in blockCache ==> b in old(blockCache) || fresh(b)
        invariant forall j :: 0 <= j < i ==> blocks[j].hash == Some(HashOf(indexer.chain, blockNums[j]))
        invariant Rounds(blockCache) == Rounds(old(blockCache)) + Lookahead(blockNums[..i], RoundSet(blockNums))
        invariant Requested(indexer.answers, old(indexer.lookups),
          Lookahead(blockNums[..i], RoundSet(blockNums)), indexer.lookups, true)
      {
        ghost var before := indexer.lookups;
        var linked := LinkOne(blockNums, blocks, i);
        LookaheadRequested(indexer.answers, blockNums, RoundSet(blockNums), i,
          old(indexer.lookups), before, indexer.lookups, linked.Ok?);
        if linked.Err? {
          return Err(linked.error);
        }
      }
      assert blockNums[..|blockNums|] == blockNums;
      return Ok(blocks);
    }
  }

  /** Every block taken has the round asked for, is taken once, and has left the cache. */
  ghost predicate ValidTaken(chain: Chain, nums: seq<nat>, cache: seq<Block>, taken: seq<Option<Block>>) {
    && |taken| == |nums|
    && (forall i :: 0 <= i < |taken| && taken[i].Some? ==>
      taken[i].value.data == chain(nums[i]) && taken[i].value !in cache)
    && (forall i, j :: 0 <= i < j < |taken| && taken[i].Some? ==> taken[i] != taken[j])
  }

  lemma AfterTakeFacts(cache: seq<Block>, num: nat)
    requires NoRepeats(cache)
    ensures var rest, found := AfterTake(RoundOf, cache, num), FirstBlock(RoundOf, cache, num);
      && NoRepeats(rest) && (forall b :: b in rest ==> b in cache)
      && (found.Some? ==> found.value in cache && found.value.data.round == num && found.value !in rest)
  {
    var k := FirstAt(Rounds(cache), num);
    if k.Some? {
      assert cache[k.value] !in Without(cache, k.value);
    }
  }

  /** What is taken is taken once and has left the cache. */
  ghost predicate TakenApart(t: Taken<Block>) {
    && NoRepeats(t.cache)
    && (forall i :: 0 <= i < |t.taken| && t.taken[i].Some? ==> t.taken[i].value !in t.cache)
    && (forall i, j :: 0 <= i < j < |t.taken| && t.taken[i].Some? ==> t.taken[i] != t.taken[j])
  }

  lemma {:induction false} TakesAreApart(cache: seq<Block>, nums: seq<nat>)
    requires NoRepeats(cache)
    ensures TakenApart(Take(RoundOf, cache, nums))
  {
    if nums != [] {
      var rest, found := AfterTake(RoundOf, cache, nums[0]), FirstBlock(RoundOf, cache, nums[0]);
      var later := Take(RoundOf, rest, nums[1..]);
      AfterTakeFacts(cache, nums[0]);
      TakesAreApart(rest, nums[1..]);
      TakenWereCached(RoundOf, rest, nums[1..]);
      OneMoreApart(found, rest, later);
    }
  }

  lemma OneMoreApart(found: Option<Block>, rest: seq<Block>, later: Taken<Block>)
    requires TakenApart(later) && (found.Some? ==> found.value !in rest)
    requires forall b :: b in later.cache ==> b in rest
    requires forall i :: 0 <= i < |later.taken| && later.taken[i].Some? ==> later.taken[i].value in rest
    ensures TakenApart(Taken(later.cache, [found] + later.taken))
  {
    var taken := [found] + later.taken;
    forall i, j | 0 <= i < j < |taken| && taken[i].Some? ensures taken[i] != taken[j] {
      assert taken[j] == later.taken[j - 1] && (i > 0 ==> taken[i] == later.taken[i - 1]);
    }
    forall i | 0 <= i < |taken| && taken[i].Some? ensures taken[i].value !in later.cache {
      assert i > 0 ==> taken[i] == later.taken[i - 1];
    }
  }

  lemma TakeBlocksValid(chain: Chain, cache: seq<Block>, nums: seq<nat>)
    requires NoRepeats(cache) && forall b :: b in cache ==> b.data == chain(b.data.round)
    ensures var t := Take(RoundOf, cache, nums);
      NoRepeats(t.cache) && ValidTaken(chain, nums, t.cache, t.taken)
  {
    TakesAreApart(cache, nums);
    TakenWereCached(RoundOf, cache, nums);
  }

  lemma {:induction false} MissingConcat(
    nums: seq<nat>, taken: seq<Option<Block>>, nums': seq<nat>, taken': seq<Option<Block>>)
    requires |nums| == |taken| && |nums'| == |taken'|
    ensures Missing(nums + nums', taken + taken') == Missing(nums, taken) + Missing(nums', taken')
  {
    if nums == [] {
      assert nums + nums' == nums' && taken + taken' == taken';
    } else {
      MissingConcat(nums[1..], taken[1..], nums', taken');
      assert (nums + nums')[1..] == nums[1..] + nums' && (taken + taken')[1..] == taken[1..] + taken';
    }
  }

  /** The blocks missing before block i, block i if it is, and those after it. */
  lemma MissingSplits(nums: seq<nat>, taken: seq<Option<Block>>, i: nat)
    requires i < |nums| == |taken|
    ensures Missing(nums[..i + 1], taken[..i + 1])
         == Missing(nums[..i], taken[..i]) + if taken[i].Some? then [] else [nums[i]]
    ensures Missing(nums, taken) == Missing(nums[..i + 1], taken[..i + 1]) + Missing(nums[i + 1..], taken[i + 1..])
  {
    MissingConcat(nums[..i], taken[..i], [nums[i]], [taken[i]]);
    MissingOfOne(nums[i], taken[i]);
    assert nums[..i + 1] == nums[..i] + [nums[i]] && taken[..i + 1] == taken[..i] + [taken[i]];
    MissingAfter(nums, taken, i + 1);
  }

  lemma MissingAfter(nums: seq<nat>, taken: seq<Option<Block>>, i: nat)
    requires i <= |nums| == |taken|
    ensures Missing(nums, taken) == Missing(nums[..i], taken[..i]) + Missing(nums[i..], taken[i..])
  {
    MissingConcat(nums[..i], taken[..i], nums[i..], taken[i..]);
    assert nums == nums[..i] + nums[i..] && taken == taken[..i] + taken[i..];
  }

  lemma MissingOfOne(num: nat, b: Option<Block>)
    ensures Missing([num], [b]) == if b.Some? then [] else [num]
  {
    assert [num][1..] == [];
  }

  lemma {:induction false} LookaheadConcat(nums: seq<nat>, more: seq<nat>, batch: set<nat>)
    ensures Lookahead(nums + more, batch) == Lookahead(nums, batch) + Lookahead(more, batch)
  {
    if nums == [] {
      assert nums + more == more;
    } else {
      LookaheadConcat(nums[1..], more, batch);
      assert (nums + more)[1..] == nums[1..] + more;
      ConcatAssociative(Ahead(nums[0], batch), Lookahead(nums[1..], batch), Lookahead(more, batch));
    }
  }

  /** The look-aheads before block i, its own, and those after it. */
  lemma AheadSplits(nums: seq<nat>, i: nat, batch: set<nat>)
    requires i < |nums|
    ensures Lookahead(nums[..i + 1], batch) == Lookahead(nums[..i], batch) + Ahead(nums[i], batch)
    ensures Lookahead(nums, batch) == Lookahead(nums[..i + 1], batch) + Lookahead(nums[i + 1..], batch)
  {
    LookaheadConcat(nums[..i], [nums[i]], batch);
    LookaheadConcat(nums[..i + 1], nums[i + 1..], batch);
    assert nums[..i + 1] == nums[..i] + [nums[i]] && nums == nums[..i + 1] + nums[i + 1..];
    LookaheadOfOne(nums[i], batch);
  }

  /** One more block of a batch has made its look-ahead, if it needs one. */
  lemma LookaheadRequested(answers: nat -> bool, nums: seq<nat>, batch: set<nat>, i: nat,
    before: seq<nat>, mid: seq<nat>, after: seq<nat>, ok: bool)
    requires i < |nums| && Requested(answers, before, Lookahead(nums[..i], batch), mid, true)
    requires Requested(answers, mid, Ahead(nums[i], batch), after, ok)
    requires !ok ==> after == mid + [nums[i] + 1]
    ensures Lookahead(nums[..i + 1], batch) == Lookahead(nums[..i], batch) + Ahead(nums[i], batch)
    ensures if ok then Requested(answers, before, Lookahead(nums[..i + 1], batch), after, true)
      else Requested(answers, before, Lookahead(nums, batch), after, false)
    ensures !ok ==> after[|before|..|after| - 1] == Lookahead(nums[..i], batch) && after[|after| - 1] == nums[i] + 1
  {
    AheadSplits(nums, i, batch);
    RequestedThen(answers, before, Lookahead(nums[..i], batch), mid, Ahead(nums[i], batch), after, ok);
    if !ok {
      RequestedNoFurther(answers, before, Lookahead(nums[..i + 1], batch), Lookahead(nums[i + 1..], batch), after);
      BetweenLookups(before, Lookahead(nums[..i], batch), nums[i] + 1);
    }
  }

  lemma LookaheadOfOne(num: nat, batch: set<nat>)
    ensures Lookahead([num], batch) == Ahead(num, batch)
  {
    assert [num][1..] == [];
  }

  /** The blocks hold the given data, in order, with the given hashes. */
  predicate Delivers(blocks: seq<Block>, ds: seq<Delivered>)
    reads blocks
  {
    && |blocks| == |ds|
    && forall i :: 0 <= i < |blocks| ==> blocks[i].data == ds[i].data && blocks[i].hash == Some(ds[i].hash)
  }

  function Shifted(k: Option<nat>, offset: nat): Option<nat> {
    match k
    case None => None
    case Some(i) => Some(i + offset)
  }
}
