/** `getBlockSize`: counting transactions with all their inner transactions. */
module BlockSize {
  import opened Values
  import opened Blocks
  import opened IndexerManager
  import opened References

  /** `tx.innerTxns`, none when missing. */
  function Inner(tx: Js): (inner: seq<Js>)
    ensures inner != [] ==> Arr(inner) < tx
  {
    match Lookup(tx, "innerTxns")
    case Arr(txns) =>
      assert HasKey(tx.fields, "innerTxns");
      assert Field("innerTxns", Arr(txns)) in tx.fields;
      txns
    case _ => []
  }

  /** `countInnerTransactions`: one for the transaction, and the count of each inner one. */
  function CountInnerTransactions(tx: Js): nat
    decreases tx
  {
    if Inner(tx) == [] then 1 else 1 + CountAll(Inner(tx))
  }

  function CountAll(txns: seq<Js>): nat
    decreases txns
  {
    if txns == [] then 0 else CountInnerTransactions(txns[0]) + CountAll(txns[1..])
  }

  /** `getBlockSize`. */
  function GetBlockSize(block: BlockData): nat {
    CountAll(Transactions(block))
  }

  /** A transaction followed by everything inside it, in order. */
  function Flatten(tx: Js): seq<Js>
    decreases tx
  {
    if Inner(tx) == [] then [tx] else [tx] + FlattenAll(Inner(tx))
  }

  function FlattenAll(txns: seq<Js>): seq<Js>
    decreases txns
  {
    if txns == [] then [] else Flatten(txns[0]) + FlattenAll(txns[1..])
  }

  lemma {:induction false} CountIsFlattened(tx: Js)
    ensures CountInnerTransactions(tx) == |Flatten(tx)|
    ensures Flatten(tx)[0] == tx
    decreases tx
  {
    if Inner(tx) != [] {
      CountAllIsFlattened(Inner(tx));
    }
  }

  lemma {:induction false} CountAllIsFlattened(txns: seq<Js>)
    ensures CountAll(txns) == |FlattenAll(txns)| >= |txns|
    decreases txns
  {
    if txns != [] {
      CountIsFlattened(txns[0]);
      CountAllIsFlattened(txns[1..]);
    }
  }

  /** The block size is the number of transactions at any depth, and never less than at the top. */
  lemma BlockSizeIsFlattened(block: BlockData)
    ensures GetBlockSize(block) == |FlattenAll(Transactions(block))|
    ensures GetBlockSize(block) >= |Transactions(block)|
  {
    CountAllIsFlattened(Transactions(block));
  }

  /** Whatever is inside a transaction of the flattening is in the flattening. */
  lemma {:induction false} FlattenIsClosed(tx: Js, t: Js, u: Js)
    requires t in Flatten(tx) && u in Inner(t)
    ensures u in Flatten(tx)
    decreases tx
  {
    FlattenAllIsClosed(Inner(tx), t, u);
  }

  lemma {:induction false} FlattenAllIsClosed(txns: seq<Js>, t: Js, u: Js)
    requires u in Inner(t)
    ensures t in FlattenAll(txns) ==> u in FlattenAll(txns)
    ensures u in txns ==> u in FlattenAll(txns)
    decreases txns
  {
    if txns != [] {
      CountIsFlattened(txns[0]);
      FlattenAllIsClosed(txns[1..], t, u);
      if t in Flatten(txns[0]) {
        FlattenIsClosed(txns[0], t, u);
      }
    }
  }

  /** Sizes add up. */
  lemma {:induction false} CountIsAdditive(xs: seq<Js>, ys: seq<Js>)
    ensures CountAll(xs + ys) == CountAll(xs) + CountAll(ys)
    decreases |xs|
  {
    if xs == [] {
      assert xs + ys == ys;
    } else {
      assert (xs + ys)[1..] == xs[1..] + ys;
      CountIsAdditive(xs[1..], ys);
    }
  }

  lemma {:induction false} CountAllIsSum(txns: seq<Js>)
    ensures CountAll(txns) == Sum(txns, CountInnerTransactions)
  {
    if txns != [] {
      CountAllIsSum(txns[1..]);
    }
  }

  /** A transaction counts for one, and for each one in its list; a block counts for those in its list. */
  lemma SizeIsSum(block: BlockData, tx: Js, txns: seq<Js>)
    ensures Lookup(tx, "innerTxns") == Arr(txns) ==>
      CountInnerTransactions(tx) == 1 + Sum(txns, CountInnerTransactions)
    ensures Lookup(tx, "innerTxns") == Undefined || Lookup(tx, "innerTxns") == Null ==> CountInnerTransactions(tx) == 1
    ensures block.transactions == Some(txns) ==> GetBlockSize(block) == Sum(txns, CountInnerTransactions)
    ensures block.transactions == None ==> GetBlockSize(block) == 0
  {
    CountAllIsSum(txns);
  }
}
