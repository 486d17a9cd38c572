/** Blocks, the chain they come from, and what a fetch is meant to deliver. */
module Blocks {
  import opened Values

  /** A fetched block. It carries the hash of its predecessor but not its own. */
  datatype BlockData = BlockData(
    round: nat,
    previousBlockHash: string,
    timestamp: int,
    transactions: Option<seq<Js>>)

  /** The chain is fixed: fetching a round twice gives the same block. */
  type Chain = nat -> BlockData

  ghost predicate Consistent(chain: Chain) {
    forall r: nat :: chain(r).round == r
  }

  /** The chain is linked by block hashes: each block names the hash of the one before it. */
  ghost predicate HashLinked(chain: Chain, hashOf: BlockData -> string) {
    forall r: nat :: chain(r + 1).previousBlockHash == hashOf(chain(r))
  }

  /** A block once its hash is set. */
  datatype Delivered = Delivered(data: BlockData, hash: string)

  /** The hash of a round, as its successor records it. */
  function HashOf(chain: Chain, round: nat): string {
    chain(round + 1).previousBlockHash
  }

  /** The fetch without a cache: every requested round, with the hash its successor records. */
  function Uncached(chain: Chain, nums: seq<nat>): seq<Delivered> {
    seq(|nums|, i requires 0 <= i < |nums| => Delivered(chain(nums[i]), HashOf(chain, nums[i])))
  }

  datatype Header = Header(blockHeight: nat, blockHash: string, parentHash: string, timestamp: int)

  /** `algorandBlockToHeader`, with the time in milliseconds. */
  function AlgorandBlockToHeader(b: Delivered): Header {
    Header(b.data.round, b.hash, b.data.previousBlockHash, b.data.timestamp * 1000)
  }

  /** The first block of a batch that follows `round`, and the hash it records. */
  function LinkInBatch(batch: seq<BlockData>, round: nat): (h: Option<string>)
    ensures h.Some? <==> exists i :: 0 <= i < |batch| && batch[i].round == round + 1
  {
    if batch == [] then None
    else if batch[0].round == round + 1 then Some(batch[0].previousBlockHash)
    else
      assert forall i :: 0 <= i < |batch[1..]| ==> batch[1..][i] == batch[i + 1];
      LinkInBatch(batch[1..], round)
  }

  /** A batch taken from the chain links a round to its true hash. */
  lemma {:induction false} LinkIsGenuine(chain: Chain, batch: seq<BlockData>, round: nat)
    requires forall i :: 0 <= i < |batch| ==> batch[i] == chain(batch[i].round)
    ensures LinkInBatch(batch, round).Some? ==> LinkInBatch(batch, round) == Some(HashOf(chain, round))
  {
    if batch != [] && batch[0].round != round + 1 {
      LinkIsGenuine(chain, batch[1..], round);
    }
  }

  /** The place of the first cached block of a round. */
  function FirstAt(rounds: seq<nat>, round: nat): (k: Option<nat>)
    ensures k.Some? ==> k.value < |rounds| && rounds[k.value] == round
  {
    if rounds == [] then None
    else if rounds[0] == round then Some(0)
    else
      match FirstAt(rounds[1..], round)
      case None => None
      case Some(k) => Some(k + 1)
  }

  /** It is the first such place, and there is none only when the round is not cached. */
  lemma {:induction false} FirstAtIsFirst(rounds: seq<nat>, round: nat)
    ensures match FirstAt(rounds, round)
      case None => round !in rounds
      case Some(k) => round !in rounds[..k]
  {
    if rounds != [] && rounds[0] != round {
      FirstAtIsFirst(rounds[1..], round);
      match FirstAt(rounds, round)
      case None =>
      case Some(k) => assert rounds[..k] == [rounds[0]] + rounds[1..][..k - 1];
    }
  }
}
