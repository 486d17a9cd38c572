/** `indexBlockData`: which handlers see which data, and in what order. */
module IndexerManager {
  import opened Values
  import opened Blocks
  import opened References
  import opened Filters
  import opened DataSources

  /** What a handler is given. */
  datatype Datum = OfBlock(block: BlockData) | OfTransaction(txn: Js)

  datatype Firing = Firing(ds: DataSource, handler: Handler, datum: Datum)

  /** What the node's framework decides: timestamp schedules, and a plugin's own filters. */
  datatype Framework = Framework(schedule: Schedule, processorPasses: (DataSource, Handler, Datum) -> bool)

  function KindOf(datum: Datum): string {
    if datum.OfBlock? then BLOCK_HANDLER else TRANSACTION_HANDLER
  }

  /** `baseCustomHandlerFilter`, and the filters runtime handlers are held to. */
  function FilterDatum(fw: Framework, datum: Datum, filter: Option<Filter>): Result<bool> {
    match datum
    case OfBlock(block) => Ok(FilterBlock(block, filter, fw.schedule))
    case OfTransaction(txn) => Accepts(txn, filter)
  }

  /** Passing any filter of a list is enough. */
  function AnyPasses(fw: Framework, datum: Datum, filters: seq<Option<Filter>>): Result<bool> {
    if filters == [] then Ok(false)
    else
      var passed :- FilterDatum(fw, datum, filters[0]);
      if passed then Ok(true) else AnyPasses(fw, datum, filters[1..])
  }

  lemma OneFilter(fw: Framework, datum: Datum, f: Filter)
    ensures AnyPasses(fw, datum, [Some(f)]) == FilterDatum(fw, datum, Some(f))
  {
    assert [Some(f)][1..] == [];
  }

  function Passes(fw: Framework, ds: DataSource, h: Handler, datum: Datum): Result<bool> {
    if GetBaseHandlerKind(ds, h) != Ok(KindOf(datum)) then Ok(false)
    else
      var passed :- AnyPasses(fw, datum, BaseFilters(ds, h));
      Ok(passed && (IsRuntimeDs(ds) || fw.processorPasses(ds, h, datum)))
  }

  /** The handlers of a data source that see the datum. */
  function Chosen(fw: Framework, ds: DataSource, hs: seq<Handler>, datum: Datum): Result<seq<Handler>> {
    if hs == [] then Ok([])
    else
      var passed :- Passes(fw, ds, hs[0], datum);
      var rest :- Chosen(fw, ds, hs[1..], datum);
      Ok((if passed then [hs[0]] else []) + rest)
  }

  /** What a stretch of indexing fires, and whether it ended in a throw. */
  datatype Run = Run(fired: seq<Firing>, thrown: bool)

  const NOTHING := Run([], false)

  /** One stretch after another; a throw ends both. */
  function Then(a: Run, b: Run): Run {
    if a.thrown then a else Run(a.fired + b.fired, b.thrown)
  }

  function FireAll(ds: DataSource, hs: seq<Handler>, datum: Datum): seq<Firing> {
    seq(|hs|, i requires 0 <= i < |hs| => Firing(ds, hs[i], datum))
  }

  function IndexData(fw: Framework, ds: DataSource, datum: Datum): Run {
    match Chosen(fw, ds, ds.handlers, datum)
    case Err(_) => Run([], true)
    case Ok(hs) => Run(FireAll(ds, hs, datum), false)
  }

  function IndexSources(fw: Framework, dss: seq<DataSource>, datum: Datum): Run {
    if dss == [] then NOTHING
    else Then(IndexData(fw, dss[0], datum), IndexSources(fw, dss[1..], datum))
  }

  function IndexTransactions(fw: Framework, dss: seq<DataSource>, txns: seq<Js>): Run {
    if txns == [] then NOTHING
    else Then(IndexSources(fw, dss, OfTransaction(txns[0])), IndexTransactions(fw, dss, txns[1..]))
  }

  /** `block.transactions ?? []`. */
  function Transactions(block: BlockData): seq<Js> {
    match block.transactions
    case Some(txns) => txns
    case None => []
  }

  /** The block goes to every data source first, then each transaction does. */
  function IndexBlock(fw: Framework, dss: seq<DataSource>, block: BlockData): Run {
    Then(IndexSources(fw, dss, OfBlock(block)), IndexTransactions(fw, dss, Transactions(block)))
  }

  /** Block after block. */
  function IndexBlocks(fw: Framework, dss: seq<DataSource>, blocks: seq<BlockData>): Run {
    if blocks == [] then NOTHING
    else Then(IndexBlock(fw, dss, blocks[0]), IndexBlocks(fw, dss, blocks[1..]))
  }

  // ----- Who sees what -----

  lemma {:induction false} ChosenIff(fw: Framework, ds: DataSource, hs: seq<Handler>, datum: Datum)
    requires Chosen(fw, ds, hs, datum).Ok?
    ensures forall h :: h in Chosen(fw, ds, hs, datum).value <==> h in hs && Passes(fw, ds, h, datum) == Ok(true)
    ensures forall h :: h in hs ==> Passes(fw, ds, h, datum).Ok?
  {
    if hs != [] {
      ChosenIff(fw, ds, hs[1..], datum);
      assert hs == [hs[0]] + hs[1..];
    }
  }

  /** A firing is due for a datum: its handler passes. */
  predicate Belongs(fw: Framework, dss: seq<DataSource>, datum: Datum, f: Firing) {
    f.datum == datum && f.ds in dss && f.handler in f.ds.handlers && Passes(fw, f.ds, f.handler, datum) == Ok(true)
  }

  /** Exactly the handlers that pass see a datum. */
  lemma {:induction false} SourcesFireIff(fw: Framework, dss: seq<DataSource>, datum: Datum)
    requires !IndexSources(fw, dss, datum).thrown
    ensures forall f :: f in IndexSources(fw, dss, datum).fired <==> Belongs(fw, dss, datum, f)
  {
    if dss != [] {
      var hs := Chosen(fw, dss[0], dss[0].handlers, datum).value;
      ChosenIff(fw, dss[0], dss[0].handlers, datum);
      SourcesFireIff(fw, dss[1..], datum);
      assert dss == [dss[0]] + dss[1..];
      var here, later := FireAll(dss[0], hs, datum), IndexSources(fw, dss[1..], datum).fired;
      forall f ensures f in here + later <==> Belongs(fw, dss, datum, f) {
        FiredHere(dss[0], hs, datum, f);
      }
    }
  }

  lemma FiredHere(ds: DataSource, hs: seq<Handler>, datum: Datum, f: Firing)
    ensures f in FireAll(ds, hs, datum) <==> f.ds == ds && f.handler in hs && f.datum == datum
  {
    if f.ds == ds && f.handler in hs && f.datum == datum {
      var i :| 0 <= i < |hs| && hs[i] == f.handler;
      assert FireAll(ds, hs, datum)[i] == f;
    }
  }

  lemma {:induction false} TransactionsFireIff(fw: Framework, dss: seq<DataSource>, txns: seq<Js>)
    requires !IndexTransactions(fw, dss, txns).thrown
    ensures forall f :: f in IndexTransactions(fw, dss, txns).fired <==>
      f.datum.OfTransaction? && f.datum.txn in txns && Belongs(fw, dss, f.datum, f)
  {
    if txns != [] {
      SourcesFireIff(fw, dss, OfTransaction(txns[0]));
      TransactionsFireIff(fw, dss, txns[1..]);
      assert txns == [txns[0]] + txns[1..];
    }
  }

  /** A block that is indexed to its end fires exactly the handlers that pass, the block's own first. */
  lemma BlockFiresIff(fw: Framework, dss: seq<DataSource>, block: BlockData)
    requires !IndexBlock(fw, dss, block).thrown
    ensures forall f :: f in IndexBlock(fw, dss, block).fired <==>
      && (f.datum == OfBlock(block) || (f.datum.OfTransaction? && f.datum.txn in Transactions(block)))
      && Belongs(fw, dss, f.datum, f)
    ensures var fired := IndexBlock(fw, dss, block).fired;
      forall i, j :: 0 <= i < j < |fired| && fired[i].datum.OfTransaction? ==> fired[j].datum.OfTransaction?
  {
    SourcesFireIff(fw, dss, OfBlock(block));
    TransactionsFireIff(fw, dss, Transactions(block));
    var own := IndexSources(fw, dss, OfBlock(block)).fired;
    var rest := IndexTransactions(fw, dss, Transactions(block)).fired;
    forall f | f in own ensures f.datum.OfBlock? {
    }
    forall f | f in rest ensures f.datum.OfTransaction? {
    }
  }

  lemma ThenAssociative(a: Run, b: Run, c: Run)
    ensures Then(Then(a, b), c) == Then(a, Then(b, c))
  {
    if !a.thrown && !b.thrown {
      assert a.fired + b.fired + c.fired == a.fired + (b.fired + c.fired);
    }
  }

  lemma ThenNothing(a: Run)
    ensures Then(NOTHING, a) == a && Then(a, NOTHING) == a
  {
    assert [] + a.fired == a.fired && a.fired + [] == a.fired;
  }

  /** The trace has grown by what a run fires, and a throw is a throw. */
  predicate Performed(before: seq<Firing>, after: seq<Firing>, run: Run, r: Result<()>) {
    after == before + run.fired && (r.Err? <==> run.thrown)
  }

  /** The manager, whose handlers' effects are the firings in order. */
  class Manager {
    const fw: Framework
    var trace: seq<Firing>

    constructor (fw: Framework)
      ensures this.fw == fw && trace == []
    {
      this.fw := fw;
      trace := [];
    }

    method IndexDatum(ds: DataSource, datum: Datum) returns (r: Result<()>)
      modifies this`trace
      ensures Performed(old(trace), trace, IndexData(fw, ds, datum), r)
    {
      var hs :- Chosen(fw, ds, ds.handlers, datum);
      for i := 0 to |hs|
        invariant trace == old(trace) + FireAll(ds, hs, datum)[..i]
      {
        trace := trace + [Firing(ds, hs[i], datum)];
      }
      return Ok(());
    }

    /** `indexBlockContent` and `indexBlockTransactionContent`. */
    method IndexContent(dss: seq<DataSource>, datum: Datum) returns (r: Result<()>)
      modifies this`trace
      ensures Performed(old(trace), trace, IndexSources(fw, dss, datum), r)
    {
      ghost var done := NOTHING;
      for i := 0 to |dss|
        invariant !done.thrown && trace == old(trace) + done.fired
        invariant IndexSources(fw, dss, datum) == Then(done, IndexSources(fw, dss[i..], datum))
      {
        ghost var here := IndexData(fw, dss[i], datum);
        ThenAssociative(done, here, IndexSources(fw, dss[i + 1..], datum));
        assert dss[i..][1..] == dss[i + 1..];
        ConcatAssociative(old(trace), done.fired, here.fired);
        done := Then(done, here);
        var _ :- IndexDatum(dss[i], datum);
      }
      return Ok(());
    }

    method IndexEachTransaction(txns: seq<Js>, dss: seq<DataSource>) returns (r: Result<()>)
      modifies this`trace
      ensures Performed(old(trace), trace, IndexTransactions(fw, dss, txns), r)
    {
      ghost var done := NOTHING;
      for i := 0 to |txns|
        invariant !done.thrown && trace == old(trace) + done.fired
        invariant IndexTransactions(fw, dss, txns) == Then(done, IndexTransactions(fw, dss, txns[i..]))
      {
        ghost var here := IndexSources(fw, dss, OfTransaction(txns[i]));
        ThenAssociative(done, here, IndexTransactions(fw, dss, txns[i + 1..]));
        assert txns[i..][1..] == txns[i + 1..];
        ConcatAssociative(old(trace), done.fired, here.fired);
        done := Then(done, here);
        var _ :- IndexContent(dss, OfTransaction(txns[i]));
      }
      return Ok(());
    }

    method IndexBlockData(block: BlockData, dss: seq<DataSource>) returns (r: Result<()>)
      modifies this`trace
      ensures Performed(old(trace), trace, IndexBlock(fw, dss, block), r)
    {
      var _ :- IndexContent(dss, OfBlock(block));
      r := IndexEachTransaction(Transactions(block), dss);
    }
  }
}
