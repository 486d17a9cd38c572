/** Indexing only the blocks the dictionary selects fires exactly what indexing all of them fires. */
module Skipping {
  import opened Values
  import opened Blocks
  import opened Filters
  import opened DataSources
  import opened Dictionary
  import opened QueryEntries
  import opened IndexerManager

  /** A round is a multiple of a filter's modulo. */
  predicate MultipleOf(round: nat, f: Filter) {
    match Find(f, "modulo")
    case Num(m) => m != 0 && round % m == 0
    case _ => false
  }

  /** A modulo the node can step through: a number other than zero. */
  predicate ModuloFits(f: Filter) {
    Find(f, "modulo").Num? && Find(f, "modulo").n != 0
  }

  /** Some Block handler is due at this round. */
  ghost predicate Due(dss: seq<DataSource>, round: nat) {
    exists o, f :: o in AllOwned(dss) && GetBaseHandlerKind(o.ds, o.handler) == Ok(BLOCK_HANDLER)
      && f in FilterList(o.ds, o.handler) && MultipleOf(round, f)
  }

  /** A block the dictionary leads to: it has a matching transaction, or a Block handler is due. */
  ghost predicate Selected(dss: seq<DataSource>, es: seq<Entry>, block: BlockData) {
    || Due(dss, block.round)
    || exists txn :: txn in Transactions(block) && AnyMatches(txn, es)
  }

  ghost function SelectBlocks(dss: seq<DataSource>, es: seq<Entry>, blocks: seq<BlockData>): seq<BlockData> {
    if blocks == [] then []
    else (if Selected(dss, es, blocks[0]) then [blocks[0]] else []) + SelectBlocks(dss, es, blocks[1..])
  }

  /** What the compiled query relies on for one handler: Block filters it can step by, Transaction filters
      as their type has them. */
  predicate FiltersFit(o: Owned) {
    match GetBaseHandlerKind(o.ds, o.handler)
    case Ok(kind) =>
      && (kind == BLOCK_HANDLER ==>
        None !in BaseFilters(o.ds, o.handler) && forall f :: f in FilterList(o.ds, o.handler) ==> ModuloFits(f))
      && (kind == TRANSACTION_HANDLER ==> forall f :: f in FilterList(o.ds, o.handler) ==> Typed(f))
    case Err(_) => true
  }

  predicate ProjectFits(dss: seq<DataSource>) {
    WellFormed(dss) && forall o :: o in AllOwned(dss) ==> FiltersFit(o)
  }

  predicate SeesTransactions(o: Owned) {
    GetBaseHandlerKind(o.ds, o.handler) == Ok(TRANSACTION_HANDLER)
  }

  /** If the list has an undefined filter, which accepts all, another asks for nothing but this type. */
  predicate DroppedIsCovered(o: Owned, txn: Js) {
    None in BaseFilters(o.ds, o.handler) ==>
      && Lookup(txn, "txType").Str?
      && exists f :: f in FilterList(o.ds, o.handler) && AsksOnlyFor(f, Lookup(txn, "txType").s)
  }

  /** By the types alone: each filter whose type passes has an entry that reaches the transaction. */
  predicate Covered(dss: seq<DataSource>, txn: Js) {
    && Plain(txn)
    && forall o :: o in AllOwned(dss) && SeesTransactions(o) ==>
      && DroppedIsCovered(o, txn)
      && forall f :: f in FilterList(o.ds, o.handler) && TypePasses(txn, f) ==> EntryReaches(txn, f)
  }

  predicate AllCovered(dss: seq<DataSource>, block: BlockData) {
    forall txn :: txn in Transactions(block) ==> Covered(dss, txn)
  }

  /** A filter accepts the transaction although its entry does not reach it. */
  ghost predicate Overlooked(dss: seq<DataSource>, txn: Js) {
    exists o, f :: o in AllOwned(dss) && SeesTransactions(o) && f in FilterList(o.ds, o.handler)
      && Accepts(txn, Some(f)) == Ok(true) && !EntryReaches(txn, f)
  }

  /** If every filter names a mapped type, all transactions are covered, whatever their own type. */
  lemma TypedFiltersCover(dss: seq<DataSource>, txn: Js)
    requires Plain(txn)
    requires forall o :: o in AllOwned(dss) && SeesTransactions(o) ==>
      && None !in BaseFilters(o.ds, o.handler)
      && forall f :: f in FilterList(o.ds, o.handler) ==> IsMapped(Find(f, "txType"))
    ensures Covered(dss, txn)
  {
  }

  /**
   * A Block filter that passes the compilation fires only at multiples of its modulo exactly when
   * the modulo is a number other than zero: anything else that is defined passes every block.
   */
  lemma ModuloIsHonouredIff(f: Filter)
    requires !LacksModulo(f)
    ensures (forall round: nat :: FilterBlockModulo(round, f) ==> MultipleOf(round, f)) <==> ModuloFits(f)
  {
    assert FilterBlockModulo(1, f) || ModuloFits(f);
    if !ModuloFits(f) {
      assert FilterBlockModulo(1, f) && !MultipleOf(1, f);
    }
  }

  // ----- One handler -----

  /** The datum is neither a transaction the query finds nor a block at a round that is due. */
  ghost predicate Unselected(dss: seq<DataSource>, es: seq<Entry>, datum: Datum) {
    match datum
    case OfBlock(block) => !Due(dss, block.round)
    case OfTransaction(txn) =>
      && Plain(txn) && !AnyMatches(txn, es) && !Overlooked(dss, txn)
      && forall o :: o in AllOwned(dss) && SeesTransactions(o) ==> DroppedIsCovered(o, txn)
  }

  /** A query exists, and the project's filters are fit for it. */
  ghost predicate HasQuery(dss: seq<DataSource>, es: seq<Entry>) {
    ProjectFits(dss) && Query(dss) == Ok(es) && es != []
  }

  lemma FilterRejects(fw: Framework, dss: seq<DataSource>, es: seq<Entry>, o: Owned, f: Filter, datum: Datum)
    requires HasQuery(dss, es) && Unselected(dss, es, datum)
    requires o in AllOwned(dss) && f in FilterList(o.ds, o.handler)
    requires GetBaseHandlerKind(o.ds, o.handler) == Ok(IndexerManager.KindOf(datum))
    ensures FilterDatum(fw, datum, Some(f)) != Ok(true)
  {
    assert FiltersFit(o);
    match datum
    case OfBlock(block) => assert !MultipleOf(block.round, f);
    case OfTransaction(txn) =>
      if Accepts(txn, Some(f)) == Ok(true) {
        assert SeesTransactions(o) && EntryReaches(txn, f);
        AcceptedIsFoundIff(txn, f);
        QueryFindsFilter(txn, dss, o, f);
      }
  }

  /** Where the query finds nothing, no undefined filter was dropped. */
  lemma NothingDropped(dss: seq<DataSource>, es: seq<Entry>, o: Owned, datum: Datum)
    requires HasQuery(dss, es) && Unselected(dss, es, datum) && o in AllOwned(dss)
    requires GetBaseHandlerKind(o.ds, o.handler) == Ok(IndexerManager.KindOf(datum))
    ensures None !in BaseFilters(o.ds, o.handler)
  {
    assert FiltersFit(o);
    if datum.OfTransaction? && None in BaseFilters(o.ds, o.handler) {
      assert SeesTransactions(o) && DroppedIsCovered(o, datum.txn);
      var f :| f in FilterList(o.ds, o.handler) && AsksOnlyFor(f, Lookup(datum.txn, "txType").s);
      assert EntryMatches(datum.txn, EntryOf(f));
      QueryFindsFilter(datum.txn, dss, o, f);
    }
  }

  lemma {:induction false} NonePass(fw: Framework, datum: Datum, filters: seq<Option<Filter>>)
    requires forall f :: f in filters ==> FilterDatum(fw, datum, f) != Ok(true)
    ensures AnyPasses(fw, datum, filters) != Ok(true)
  {
    if filters != [] {
      assert filters[0] in filters;
      NonePass(fw, datum, filters[1..]);
    }
  }

  /** No handler of the project sees unselected data. */
  lemma HandlerPasses(fw: Framework, dss: seq<DataSource>, es: seq<Entry>, o: Owned, datum: Datum)
    requires HasQuery(dss, es) && Unselected(dss, es, datum) && o in AllOwned(dss)
    ensures Passes(fw, o.ds, o.handler, datum) != Ok(true)
  {
    if GetBaseHandlerKind(o.ds, o.handler) == Ok(IndexerManager.KindOf(datum)) {
      NothingDropped(dss, es, o, datum);
      forall f | f in BaseFilters(o.ds, o.handler) ensures FilterDatum(fw, datum, f) != Ok(true) {
        assert f.Some? && f.value in FilterList(o.ds, o.handler);
        FilterRejects(fw, dss, es, o, f.value, datum);
      }
      NonePass(fw, datum, BaseFilters(o.ds, o.handler));
    }
  }

  // ----- One block -----

  lemma {:induction false} NoneChosen(fw: Framework, ds: DataSource, hs: seq<Handler>, datum: Datum)
    requires forall h :: h in hs ==> Passes(fw, ds, h, datum) != Ok(true)
    ensures Chosen(fw, ds, hs, datum).Ok? ==> Chosen(fw, ds, hs, datum) == Ok([])
  {
    if hs != [] {
      assert hs[0] in hs;
      NoneChosen(fw, ds, hs[1..], datum);
      var none: seq<Handler> := [];
      assert none + none == none;
    }
  }

  lemma {:induction false} SourcesSilent(
    fw: Framework, dss: seq<DataSource>, es: seq<Entry>, datum: Datum, k: nat)
    requires HasQuery(dss, es) && Unselected(dss, es, datum) && k <= |dss|
    ensures IndexSources(fw, dss[k..], datum).fired == []
    decreases |dss| - k
  {
    if k < |dss| {
      var ds := dss[k];
      assert dss[k..][1..] == dss[k + 1..];
      forall h | h in ds.handlers ensures Passes(fw, ds, h, datum) != Ok(true) {
        var i :| 0 <= i < |ds.handlers| && ds.handlers[i] == h;
        AllOwnedMember(dss, k, i);
        HandlerPasses(fw, dss, es, Owned(ds, h), datum);
      }
      NoneChosen(fw, ds, ds.handlers, datum);
      SourcesSilent(fw, dss, es, datum, k + 1);
    }
  }

  lemma {:induction false} TransactionsSilent(fw: Framework, dss: seq<DataSource>, es: seq<Entry>, txns: seq<Js>)
    requires HasQuery(dss, es)
    requires forall txn :: txn in txns ==> Unselected(dss, es, OfTransaction(txn))
    ensures IndexTransactions(fw, dss, txns).fired == []
  {
    if txns != [] {
      assert txns[0] in txns && dss[0..] == dss;
      SourcesSilent(fw, dss, es, OfTransaction(txns[0]), 0);
      TransactionsSilent(fw, dss, es, txns[1..]);
    }
  }

  /** An unselected block fires nothing. */
  lemma UnselectedBlockIsSilent(fw: Framework, dss: seq<DataSource>, es: seq<Entry>, block: BlockData)
    requires HasQuery(dss, es) && AllCovered(dss, block) && !Selected(dss, es, block)
    ensures IndexBlock(fw, dss, block).fired == []
  {
    forall txn | txn in Transactions(block) ensures Unselected(dss, es, OfTransaction(txn)) {
      assert Covered(dss, txn) && !Overlooked(dss, txn);
    }
    SilentIfUnselected(fw, dss, es, block);
  }

  lemma SilentIfUnselected(fw: Framework, dss: seq<DataSource>, es: seq<Entry>, block: BlockData)
    requires HasQuery(dss, es) && !Due(dss, block.round)
    requires forall txn :: txn in Transactions(block) ==> Unselected(dss, es, OfTransaction(txn))
    ensures IndexBlock(fw, dss, block).fired == []
  {
    assert dss[0..] == dss;
    SourcesSilent(fw, dss, es, OfBlock(block), 0);
    TransactionsSilent(fw, dss, es, Transactions(block));
  }

  predicate AllRuntime(dss: seq<DataSource>) {
    forall ds :: ds in dss ==> IsRuntimeDs(ds)
  }

  /** A runtime handler with a filter sees what the filter accepts. */
  lemma RuntimeFilterPasses(fw: Framework, o: Owned, f: Filter, datum: Datum)
    requires IsRuntimeDs(o.ds) && f in FilterList(o.ds, o.handler)
    requires GetBaseHandlerKind(o.ds, o.handler) == Ok(IndexerManager.KindOf(datum))
    ensures BaseFilters(o.ds, o.handler) == [Some(f)]
    ensures Passes(fw, o.ds, o.handler, datum) == FilterDatum(fw, datum, Some(f))
  {
    var filters := BaseFilters(o.ds, o.handler);
    assert filters == [o.handler.filter] && Some(f) in filters;
    OneFilter(fw, datum, f);
  }

  /** An overlooked transaction fires. */
  lemma OverlookedFires(fw: Framework, dss: seq<DataSource>, block: BlockData, txn: Js)
    requires AllRuntime(dss) && !IndexBlock(fw, dss, block).thrown
    requires txn in Transactions(block) && Overlooked(dss, txn)
    ensures IndexBlock(fw, dss, block).fired != []
  {
    var o, f :| o in AllOwned(dss) && SeesTransactions(o) && f in FilterList(o.ds, o.handler)
      && Accepts(txn, Some(f)) == Ok(true) && !EntryReaches(txn, f);
    AllOwnedIs(dss, o);
    RuntimeFilterPasses(fw, o, f, OfTransaction(txn));
    BlockFiresIff(fw, dss, block);
    assert Belongs(fw, dss, OfTransaction(txn), Firing(o.ds, o.handler, OfTransaction(txn)));
    assert Firing(o.ds, o.handler, OfTransaction(txn)) in IndexBlock(fw, dss, block).fired;
  }

  /** Exactly when an unselected block of a runtime project is silent: no filter accepts what its entry misses. */
  lemma UnselectedIsSilentIff(fw: Framework, dss: seq<DataSource>, es: seq<Entry>, block: BlockData)
    requires HasQuery(dss, es) && AllRuntime(dss) && !Selected(dss, es, block)
    requires forall txn :: txn in Transactions(block) ==> Plain(txn)
    requires !IndexBlock(fw, dss, block).thrown
    ensures IndexBlock(fw, dss, block).fired == [] <==>
      forall txn :: txn in Transactions(block) ==> !Overlooked(dss, txn)
  {
    if txn :| txn in Transactions(block) && Overlooked(dss, txn) {
      OverlookedFires(fw, dss, block, txn);
    } else {
      forall o, txn | o in AllOwned(dss) && SeesTransactions(o) ensures DroppedIsCovered(o, txn) {
        QueryNeedsFilters(dss, o);
        AllOwnedIs(dss, o);
        RuntimeFilterPasses(fw, o, FilterList(o.ds, o.handler)[0], OfTransaction(txn));
      }
      SilentIfUnselected(fw, dss, es, block);
    }
  }

  // ----- All blocks -----

  /** The first block that throws, if there is one, is not skipped. */
  ghost predicate FirstThrowIsSelected(fw: Framework, dss: seq<DataSource>, es: seq<Entry>, blocks: seq<BlockData>) {
    blocks != [] ==>
      if IndexBlock(fw, dss, blocks[0]).thrown then Selected(dss, es, blocks[0])
      else FirstThrowIsSelected(fw, dss, es, blocks[1..])
  }

  /**
   * Skipping is invisible: unless the full run throws at a block that is skipped, indexing just the
   * selected blocks fires the same handlers on the same data in the same order. In any case it
   * fires all that and throws only if the full run throws.
   */
  lemma {:induction false} SkippingIsInvisible(
    fw: Framework, dss: seq<DataSource>, es: seq<Entry>, blocks: seq<BlockData>)
    requires HasQuery(dss, es) && forall b :: b in blocks ==> AllCovered(dss, b)
    ensures var all, some := IndexBlocks(fw, dss, blocks), IndexBlocks(fw, dss, SelectBlocks(dss, es, blocks));
      && (FirstThrowIsSelected(fw, dss, es, blocks) ==> some == all)
      && (!all.thrown ==> FirstThrowIsSelected(fw, dss, es, blocks))
      && all.fired <= some.fired
      && (some.thrown ==> all.thrown)
  {
    if blocks != [] {
      var first, later := blocks[0], SelectBlocks(dss, es, blocks[1..]);
      SkippingIsInvisible(fw, dss, es, blocks[1..]);
      assert first in blocks;
      if Selected(dss, es, first) {
        assert ([first] + later)[1..] == later;
      } else {
        assert [] + later == later;
        UnselectedBlockIsSilent(fw, dss, es, first);
        ThenNothing(IndexBlocks(fw, dss, blocks[1..]));
      }
    }
  }

  /** No block that is skipped holds an overlooked transaction. */
  ghost predicate NothingOverlooked(dss: seq<DataSource>, es: seq<Entry>, blocks: seq<BlockData>) {
    forall b, txn :: b in blocks && !Selected(dss, es, b) && txn in Transactions(b) ==> !Overlooked(dss, txn)
  }

  lemma SameAfter(a: Run, b: Run, c: Run)
    requires !a.thrown
    ensures Then(a, b) == Then(a, c) <==> b == c
  {
    if Then(a, b) == Then(a, c) {
      assert b.fired == (a.fired + b.fired)[|a.fired|..] == (a.fired + c.fired)[|a.fired|..] == c.fired;
    }
  }

  /**
   * For a runtime project that throws nowhere, the exact condition: skipping is invisible if and
   * only if no skipped block holds a transaction that a filter accepts and its entry misses.
   */
  lemma {:induction false} SkippingIsInvisibleIff(
    fw: Framework, dss: seq<DataSource>, es: seq<Entry>, blocks: seq<BlockData>)
    requires HasQuery(dss, es) && AllRuntime(dss) && !IndexBlocks(fw, dss, blocks).thrown
    requires forall b, txn :: b in blocks && txn in Transactions(b) ==> Plain(txn)
    ensures var all, some := IndexBlocks(fw, dss, blocks), IndexBlocks(fw, dss, SelectBlocks(dss, es, blocks));
      && !some.thrown && |some.fired| <= |all.fired|
      && (some == all <==> NothingOverlooked(dss, es, blocks))
  {
    if blocks != [] {
      var first, later := blocks[0], SelectBlocks(dss, es, blocks[1..]);
      SkippingIsInvisibleIff(fw, dss, es, blocks[1..]);
      assert blocks == [first] + blocks[1..];
      if Selected(dss, es, first) {
        assert ([first] + later)[1..] == later;
        SameAfter(IndexBlock(fw, dss, first), IndexBlocks(fw, dss, later), IndexBlocks(fw, dss, blocks[1..]));
      } else {
        assert [] + later == later;
        UnselectedIsSilentIff(fw, dss, es, first);
        ThenNothing(IndexBlocks(fw, dss, blocks[1..]));
      }
    }
  }

  /** Every firing happens at a block the dictionary leads to. */
  lemma FiringsAreSelected(fw: Framework, dss: seq<DataSource>, es: seq<Entry>, block: BlockData)
    requires HasQuery(dss, es) && AllCovered(dss, block) && IndexBlock(fw, dss, block).fired != []
    ensures Due(dss, block.round) || exists txn :: txn in Transactions(block) && AnyMatches(txn, es)
  {
    if !Selected(dss, es, block) {
      UnselectedBlockIsSilent(fw, dss, es, block);
    }
  }

  // ----- When indexing throws -----

  /** The handler sees transactions, and a filter of its list throws before any other accepts. */
  ghost predicate HandlerThrows(o: Owned, txn: Js) {
    && GetBaseHandlerKind(o.ds, o.handler) == Ok(TRANSACTION_HANDLER)
    && ListThrows(BaseFilters(o.ds, o.handler), txn)
  }

  ghost predicate ListThrows(filters: seq<Option<Filter>>, txn: Js) {
    exists i :: 0 <= i < |filters| && FilterThrows(txn, filters[i])
      && forall j :: 0 <= j < i ==> Accepts(txn, filters[j]) == Ok(false)
  }

  lemma {:induction false} ListThrowsIff(fw: Framework, txn: Js, filters: seq<Option<Filter>>)
    ensures AnyPasses(fw, OfTransaction(txn), filters).Err? <==> ListThrows(filters, txn)
  {
    if filters != [] {
      var later := filters[1..];
      FilterThrowsIff(txn, filters[0]);
      ListThrowsIff(fw, txn, later);
      if Accepts(txn, filters[0]) == Ok(false) && ListThrows(later, txn) {
        var i :| 0 <= i < |later| && FilterThrows(txn, later[i])
          && forall j :: 0 <= j < i ==> Accepts(txn, later[j]) == Ok(false);
        assert FilterThrows(txn, filters[i + 1]);
        forall j | 0 <= j < i + 1 ensures Accepts(txn, filters[j]) == Ok(false) {
          assert j > 0 ==> filters[j] == later[j - 1];
        }
      }
      if ListThrows(filters, txn) && !FilterThrows(txn, filters[0]) {
        var i :| 0 <= i < |filters| && FilterThrows(txn, filters[i])
          && forall j :: 0 <= j < i ==> Accepts(txn, filters[j]) == Ok(false);
        assert FilterThrows(txn, later[i - 1]);
        forall j | 0 <= j < i - 1 ensures Accepts(txn, later[j]) == Ok(false) {
          assert later[j] == filters[j + 1];
        }
      }
    }
  }

  lemma {:induction false} BlockFiltersDoNotThrow(fw: Framework, block: BlockData, filters: seq<Option<Filter>>)
    ensures AnyPasses(fw, OfBlock(block), filters).Ok?
  {
    if filters != [] {
      BlockFiltersDoNotThrow(fw, block, filters[1..]);
    }
  }

  ghost predicate DatumThrows(o: Owned, datum: Datum) {
    datum.OfTransaction? && HandlerThrows(o, datum.txn)
  }

  lemma PassesThrowsIff(fw: Framework, o: Owned, datum: Datum)
    ensures Passes(fw, o.ds, o.handler, datum).Err? <==> DatumThrows(o, datum)
  {
    match datum
    case OfBlock(block) => BlockFiltersDoNotThrow(fw, block, BaseFilters(o.ds, o.handler));
    case OfTransaction(txn) => ListThrowsIff(fw, txn, BaseFilters(o.ds, o.handler));
  }

  lemma {:induction false} ChoosingThrowsIff(fw: Framework, ds: DataSource, k: nat, datum: Datum)
    requires k <= |ds.handlers|
    ensures Chosen(fw, ds, ds.handlers[k..], datum).Err? <==>
      exists o :: o in OwnedFrom(ds, k) && DatumThrows(o, datum)
    decreases |ds.handlers| - k
  {
    if k < |ds.handlers| {
      assert ds.handlers[k..][1..] == ds.handlers[k + 1..];
      PassesThrowsIff(fw, Owned(ds, ds.handlers[k]), datum);
      ChoosingThrowsIff(fw, ds, k + 1, datum);
    }
  }

  lemma {:induction false} SourcesThrowIff(fw: Framework, dss: seq<DataSource>, datum: Datum)
    ensures IndexSources(fw, dss, datum).thrown <==> exists o :: o in AllOwned(dss) && DatumThrows(o, datum)
  {
    if dss != [] {
      assert dss[0].handlers[0..] == dss[0].handlers;
      ChoosingThrowsIff(fw, dss[0], 0, datum);
      SourcesThrowIff(fw, dss[1..], datum);
    }
  }

  /** Some handler of the project throws on the transaction. */
  ghost predicate TransactionThrows(dss: seq<DataSource>, txn: Js) {
    exists o :: o in AllOwned(dss) && HandlerThrows(o, txn)
  }

  lemma TransactionThrowsIff(fw: Framework, dss: seq<DataSource>, txn: Js)
    ensures IndexSources(fw, dss, OfTransaction(txn)).thrown <==> TransactionThrows(dss, txn)
  {
    SourcesThrowIff(fw, dss, OfTransaction(txn));
    if o :| o in AllOwned(dss) && DatumThrows(o, OfTransaction(txn)) {
      assert HandlerThrows(o, txn);
    }
    if o :| o in AllOwned(dss) && HandlerThrows(o, txn) {
      assert DatumThrows(o, OfTransaction(txn));
    }
  }

  lemma {:induction false} TransactionsThrowIff(fw: Framework, dss: seq<DataSource>, txns: seq<Js>)
    ensures IndexTransactions(fw, dss, txns).thrown <==> exists txn :: txn in txns && TransactionThrows(dss, txn)
  {
    if txns != [] {
      TransactionThrowsIff(fw, dss, txns[0]);
      TransactionsThrowIff(fw, dss, txns[1..]);
      assert txns == [txns[0]] + txns[1..];
    }
  }

  /** Indexing throws exactly when some block holds a transaction that some handler throws on. */
  lemma {:induction false} IndexingThrowsIff(fw: Framework, dss: seq<DataSource>, blocks: seq<BlockData>)
    ensures IndexBlocks(fw, dss, blocks).thrown <==>
      exists b, txn :: b in blocks && txn in Transactions(b) && TransactionThrows(dss, txn)
  {
    if blocks != [] {
      SourcesThrowIff(fw, dss, OfBlock(blocks[0]));
      TransactionsThrowIff(fw, dss, Transactions(blocks[0]));
      IndexingThrowsIff(fw, dss, blocks[1..]);
      assert blocks == [blocks[0]] + blocks[1..];
    }
  }

  /** A project with one Transaction handler that has one filter fit for the dictionary. */
  predicate LoneFilter(ds: DataSource, f: Filter) {
    && ds == DataSource(RUNTIME, None, [Handler("h", TRANSACTION_HANDLER, Some(f))])
    && Typed(f) && TypeFits(f)
  }

  lemma LoneFilterHasQuery(ds: DataSource, f: Filter)
    requires LoneFilter(ds, f)
    ensures AllOwned([ds]) == [Owned(ds, ds.handlers[0])]
    ensures HasQuery([ds], [EntryOf(f)])
    ensures forall round :: !Due([ds], round)
  {
    LoneFilterQuery(ds, ds.handlers[0], f);
  }

  /** A transaction that the filter accepts and its entry misses makes a skipped block fire. */
  lemma LoneFilterFires(fw: Framework, f: Filter, ds: DataSource, block: BlockData, txn: Js)
    requires LoneFilter(ds, f) && block.transactions == Some([txn]) && Plain(txn)
    requires Accepts(txn, Some(f)) == Ok(true) && !EntryMatches(txn, EntryOf(f))
    ensures HasQuery([ds], [EntryOf(f)]) && !Selected([ds], [EntryOf(f)], block)
    ensures !IndexBlock(fw, [ds], block).thrown && IndexBlock(fw, [ds], block).fired != []
  {
    LoneFilterHasQuery(ds, f);
    LoneFilterRuns(fw, f, ds, block, txn);
    assert Transactions(block) == [txn];
    OverlookedFires(fw, [ds], block, txn);
  }

  lemma LoneFilterRuns(fw: Framework, f: Filter, ds: DataSource, block: BlockData, txn: Js)
    requires LoneFilter(ds, f) && block.transactions == Some([txn]) && Plain(txn)
    requires Accepts(txn, Some(f)) == Ok(true) && !EntryMatches(txn, EntryOf(f))
    ensures Overlooked([ds], txn) && !IndexBlock(fw, [ds], block).thrown
  {
    var o := Owned(ds, ds.handlers[0]);
    LoneFilterQuery(ds, o.handler, f);
    AcceptedIsFoundIff(txn, f);
    assert o in AllOwned([ds]) && SeesTransactions(o) && f in FilterList(o.ds, o.handler);
    FilterThrowsIff(txn, Some(f));
    assert BaseFilters(ds, o.handler) == [Some(f)] && !HandlerThrows(o, txn);
    assert !TransactionThrows([ds], txn);
    IndexingThrowsIff(fw, [ds], [block]);
    assert [block][1..] == [];
    ThenNothing(IndexBlock(fw, [ds], block));
  }

  lemma LoneFilterThrows(fw: Framework, f: Filter, ds: DataSource, block: BlockData, txn: Js)
    requires LoneFilter(ds, f) && block.transactions == Some([txn]) && Accepts(txn, Some(f)).Err?
    ensures IndexBlocks(fw, [ds], [block]).thrown
  {
    var o := Owned(ds, ds.handlers[0]);
    LoneFilterQuery(ds, o.handler, f);
    FilterThrowsIff(txn, BaseFilters(o.ds, o.handler)[0]);
    assert HandlerThrows(o, txn) && o in AllOwned([ds]);
    assert TransactionThrows([ds], txn);
    IndexingThrowsIff(fw, [ds], [block]);
    assert block in [block] && txn in Transactions(block);
  }

  lemma LoneFilterCovers(ds: DataSource, f: Filter, txn: Js)
    requires LoneFilter(ds, f) && Plain(txn) && IsMapped(Lookup(txn, "txType"))
    ensures Covered([ds], txn)
  {
    LoneFilterQuery(ds, ds.handlers[0], f);
    assert BaseFilters(ds, ds.handlers[0]) == [Some(f)];
  }

  /** A block that is skipped can fire: a handler for one sender meets that sender's state proof. */
  lemma SkippedBlockCanFire(fw: Framework, f: Filter, ds: DataSource, block: BlockData, proposal: Js)
    requires f == [Field("sender", Str("A"))] && proposal == BareTransaction("stpf")
    requires ds == DataSource(RUNTIME, None, [Handler("h", TRANSACTION_HANDLER, Some(f))])
    requires block.transactions == Some([proposal])
    ensures HasQuery([ds], [EntryOf(f)]) && !Selected([ds], [EntryOf(f)], block)
    ensures !IndexBlock(fw, [ds], block).thrown && IndexBlock(fw, [ds], block).fired != []
  {
    UnmappedIsMissed(proposal, f);
    LoneFilterFires(fw, f, ds, block, proposal);
  }

  /** A filter for the calls of one application, and a payment. */
  predicate ApplicationAndPayment(f: Filter, payment: Js) {
    && f == [Field("applicationArgs", Arr([Str("x")])), Field("applicationId", Num(1))]
    && payment == BareTransaction("pay")
  }

  lemma ApplicationFits(f: Filter, payment: Js)
    requires ApplicationAndPayment(f, payment)
    ensures Typed(f) && TypeFits(f)
  {
    var args, id, txType := f[0], f[1], "txType";
    assert |args.key| == 15 && |id.key| == 13 && |txType| == 6;
    assert f[1..] == [id];
    OneProperty(id, args.key);
    OneProperty(id, txType);
    assert DistinctKeys([id]);
  }

  lemma PaymentIsNotFound(f: Filter, payment: Js)
    requires ApplicationAndPayment(f, payment)
    ensures Plain(payment) && IsMapped(Lookup(payment, "txType"))
    ensures !EntryMatches(payment, EntryOf(f))
  {
    var key := f[1].key;
    assert Lookup(payment, "txType") == Str("pay") && Lookup(payment, "undefined") == Undefined;
    assert f[1] in f && Condition(key, Num(1)) in Conditions(f);
    BareProjectsNothing("pay", key);
    assert FieldOf(payment, key) == Undefined;
  }

  /** A block that is skipped can throw: a handler for one application meets a payment. */
  lemma SkippedBlockCanThrow(fw: Framework, f: Filter, ds: DataSource, block: BlockData, payment: Js)
    requires ApplicationAndPayment(f, payment) && block.transactions == Some([payment])
    requires ds == DataSource(RUNTIME, None, [Handler("h", TRANSACTION_HANDLER, Some(f))])
    ensures HasQuery([ds], [EntryOf(f)]) && AllCovered([ds], block)
    ensures !Selected([ds], [EntryOf(f)], block)
    ensures IndexBlocks(fw, [ds], [block]).thrown
  {
    ApplicationFits(f, payment);
    LoneFilterHasQuery(ds, f);
    PaymentIsNotFound(f, payment);
    LoneFilterCovers(ds, f, payment);
    assert Transactions(block) == [payment];
    ThrowingDependsOnOrder(payment, f[0], f[1]);
    assert f == [f[0], f[1]];
    LoneFilterThrows(fw, f, ds, block, payment);
  }
}
