/** What queries and indexing do, in terms of what a project declares: kinds, filters and processors. */
module Declared {
  import opened Values
  import opened Filters
  import opened DataSources
  import opened Dictionary
  import opened Uniq
  import opened QueryEntries
  import opened IndexerManager

  /** A runtime handler has its own kind; a custom one has the base kind of its processor. */
  predicate HasKind(ds: DataSource, h: Handler, kind: string) {
    if ds.kind == RUNTIME then h.kind == kind && kind in {BLOCK_HANDLER, TRANSACTION_HANDLER}
    else
      && h.kind !in {BLOCK_HANDLER, TRANSACTION_HANDLER}
      && ds.processors.Some? && h.kind in ds.processors.value
      && ds.processors.value[h.kind].baseHandlerKind == Some(kind) && kind != ""
  }

  /** A runtime handler has its own filter; a custom one has the filter or filters of its processor. */
  predicate HasFilters(ds: DataSource, h: Handler, filters: seq<Option<Filter>>) {
    if ds.kind == RUNTIME then filters == [h.filter]
    else
      && ds.processors.Some? && h.kind in ds.processors.value
      && match ds.processors.value[h.kind].baseFilter
        case Single(f) => filters == [f]
        case Many(fs) => filters == fs
  }

  ghost predicate Declares(
    dss: seq<DataSource>, ds: DataSource, h: Handler, kind: string, filters: seq<Option<Filter>>)
  {
    ds in dss && h in ds.handlers && HasKind(ds, h, kind) && HasFilters(ds, h, filters)
  }

  lemma KindIsDeclared(ds: DataSource, h: Handler, kind: string)
    ensures HasKind(ds, h, kind) <==> GetBaseHandlerKind(ds, h) == Ok(kind)
  {
  }

  lemma FiltersAreDeclared(ds: DataSource, h: Handler, kind: string)
    requires HasKind(ds, h, kind)
    ensures HasFilters(ds, h, BaseFilters(ds, h))
    ensures forall fs :: HasFilters(ds, h, fs) ==> fs == BaseFilters(ds, h)
  {
  }

  // ----- Queries -----

  /** The handler does not keep the project from being queried. */
  ghost predicate Queryable(ds: DataSource, h: Handler) {
    exists kind, fs :: HasKind(ds, h, kind) && HasFilters(ds, h, fs)
      && (exists f :: Some(f) in fs)
      && (kind == BLOCK_HANDLER ==> forall f :: Some(f) in fs ==> Find(f, "modulo") != Undefined)
  }

  lemma QueryableIff(o: Owned)
    ensures Queryable(o.ds, o.handler) <==> CompileHandler(o).Push?
  {
    var ds, h := o.ds, o.handler;
    if Queryable(ds, h) {
      var kind, fs :| HasKind(ds, h, kind) && HasFilters(ds, h, fs) && (exists f :: Some(f) in fs)
        && (kind == BLOCK_HANDLER ==> forall f :: Some(f) in fs ==> Find(f, "modulo") != Undefined);
      KindIsDeclared(ds, h, kind);
      FiltersAreDeclared(ds, h, kind);
      var f :| Some(f) in fs;
      assert f in FilterList(ds, h);
    }
    if CompileHandler(o).Push? {
      var kind := GetBaseHandlerKind(ds, h).value;
      KindIsDeclared(ds, h, kind);
      FiltersAreDeclared(ds, h, kind);
      var f := FilterList(ds, h)[0];
      assert f in FilterList(ds, h) && Some(f) in BaseFilters(ds, h);
    }
  }

  lemma {:induction false} CompileAllIff(os: seq<Owned>)
    ensures CompileAll(os).Push? <==> forall o :: o in os ==> CompileHandler(o).Push?
    ensures CompileAll(os).Push? ==>
      (CompileAll(os).entries != [] <==> exists o :: o in os && SomeEntries(o))
  {
    if os != [] {
      CompileAllIff(os[1..]);
      assert os == [os[0]] + os[1..];
      if CompileAll(os).Push? {
        assert CompileHandler(os[0]).Push? && CompileAll(os[1..]).Push?;
        assert CompileAll(os).entries == CompileHandler(os[0]).entries + CompileAll(os[1..]).entries;
        assert SomeEntries(os[0]) <==> CompileHandler(os[0]).entries != [];
        assert (exists o :: o in os && SomeEntries(o)) <==>
          SomeEntries(os[0]) || exists o :: o in os[1..] && SomeEntries(o);
      }
    }
  }

  predicate SomeEntries(o: Owned) {
    CompileHandler(o).Push? && CompileHandler(o).entries != []
  }

  lemma SomeEntriesIff(o: Owned)
    requires CompileHandler(o).Push?
    ensures SomeEntries(o) <==> HasKind(o.ds, o.handler, TRANSACTION_HANDLER)
  {
    KindIsDeclared(o.ds, o.handler, TRANSACTION_HANDLER);
  }

  lemma OwnedIff(dss: seq<DataSource>, ds: DataSource, h: Handler)
    ensures Owned(ds, h) in AllOwned(dss) <==> ds in dss && h in ds.handlers
  {
    if Owned(ds, h) in AllOwned(dss) {
      AllOwnedIs(dss, Owned(ds, h));
    }
    if ds in dss && h in ds.handlers {
      var d :| 0 <= d < |dss| && dss[d] == ds;
      var i :| 0 <= i < |ds.handlers| && ds.handlers[i] == h;
      AllOwnedMember(dss, d, i);
    }
  }

  /** A project has a query exactly when every handler is queryable and one of them sees transactions. */
  lemma QueryExistsIff(dss: seq<DataSource>)
    ensures Query(dss).Ok? && Query(dss).value != [] <==>
      && (forall ds, h :: ds in dss && h in ds.handlers ==> Queryable(ds, h))
      && (exists ds, h :: ds in dss && h in ds.handlers && HasKind(ds, h, TRANSACTION_HANDLER))
  {
    var os := AllOwned(dss);
    CompileAllIff(os);
    forall o | o in os
      ensures Queryable(o.ds, o.handler) <==> CompileHandler(o).Push?
      ensures o.ds in dss && o.handler in o.ds.handlers
      ensures CompileHandler(o).Push? ==> (SomeEntries(o) <==> HasKind(o.ds, o.handler, TRANSACTION_HANDLER))
    {
      QueryableIff(o);
      OwnedIff(dss, o.ds, o.handler);
      if CompileHandler(o).Push? {
        SomeEntriesIff(o);
      }
    }
    forall ds, h | ds in dss && h in ds.handlers ensures Owned(ds, h) in os {
      OwnedIff(dss, ds, h);
    }
  }

  /** The entry asks for the filter's defined properties, its argument pattern aside, and for nothing else. */
  ghost predicate AsksFor(e: Entry, f: Filter) {
    && e.entity == "transactions"
    && forall c :: c in e.conditions <==>
      Field(c.field, c.value) in f && c.field != "applicationArgs" && c.value != Undefined
  }

  /** Filters have distinct properties, as JavaScript objects do. */
  ghost predicate DeclaresObjects(dss: seq<DataSource>) {
    forall ds, h, kind, fs, f :: Declares(dss, ds, h, kind, fs) && Some(f) in fs ==> DistinctKeys(f)
  }

  lemma HandlerDeclares(dss: seq<DataSource>, o: Owned, f: Filter)
    requires o in AllOwned(dss) && f in FilterList(o.ds, o.handler) && GetBaseHandlerKind(o.ds, o.handler).Ok?
    ensures Declares(dss, o.ds, o.handler, GetBaseHandlerKind(o.ds, o.handler).value, BaseFilters(o.ds, o.handler))
    ensures Some(f) in BaseFilters(o.ds, o.handler)
  {
    var kind := GetBaseHandlerKind(o.ds, o.handler).value;
    OwnedIff(dss, o.ds, o.handler);
    KindIsDeclared(o.ds, o.handler, kind);
    FiltersAreDeclared(o.ds, o.handler, kind);
  }

  /** An entry compiled from a filter list, before duplicates are removed. */
  lemma CompiledEntries(dss: seq<DataSource>, e: Entry)
    requires CompileAll(AllOwned(dss)).Push? && DeclaresObjects(dss)
    ensures e in CompileAll(AllOwned(dss)).entries ==>
      DistinctFields(e.conditions) && exists ds, h, fs, f ::
        Declares(dss, ds, h, TRANSACTION_HANDLER, fs) && Some(f) in fs && e == EntryOf(f)
  {
    var os := AllOwned(dss);
    if e in CompileAll(os).entries {
      var o, f := EntryHasSource(os, e);
      HandlerDeclares(dss, o, f);
      assert Declares(dss, o.ds, o.handler, TRANSACTION_HANDLER, BaseFilters(o.ds, o.handler));
      EntryOfIsDistinct(f);
    }
  }

  lemma {:induction false} EntryHasSource(os: seq<Owned>, e: Entry) returns (o: Owned, f: Filter)
    requires CompileAll(os).Push? && e in CompileAll(os).entries
    ensures o in os && f in FilterList(o.ds, o.handler) && e == EntryOf(f)
    ensures GetBaseHandlerKind(o.ds, o.handler) == Ok(TRANSACTION_HANDLER)
  {
    if e in CompileHandler(os[0]).entries {
      o := os[0];
      EntriesOfMembers(FilterList(o.ds, o.handler));
      f :| f in FilterList(o.ds, o.handler) && e == EntryOf(f);
    } else {
      o, f := EntryHasSource(os[1..], e);
    }
  }

  /** Every defined filter of every Transaction handler has an entry in the query. */
  lemma EveryFilterIsAskedFor(dss: seq<DataSource>, ds: DataSource, h: Handler, fs: seq<Option<Filter>>, f: Filter)
    returns (e: Entry)
    requires Query(dss).Ok? && Query(dss).value != [] && DeclaresObjects(dss)
    requires Declares(dss, ds, h, TRANSACTION_HANDLER, fs) && Some(f) in fs
    ensures e in Query(dss).value && AsksFor(e, f)
  {
    var os, o := AllOwned(dss), Owned(ds, h);
    KindIsDeclared(ds, h, TRANSACTION_HANDLER);
    FiltersAreDeclared(ds, h, TRANSACTION_HANDLER);
    OwnedIff(dss, ds, h);
    CompiledHandlers(os);
    EntriesOfMembers(FilterList(ds, h));
    var es := CompileAll(os).entries;
    assert f in FilterList(ds, h) && CompileHandler(o).Push?;
    assert EntryOf(f) in CompileHandler(o).entries;
    assert EntryOf(f) in es;
    forall d | d in es ensures DistinctFields(d.conditions) {
      CompiledEntries(dss, d);
    }
    UniqKeepsFirst(es);
    e := KeptCover(es, EntryOf(f));
    PermutedMembers(e.conditions, EntryOf(f).conditions);
  }

  lemma PermutedMembers(xs: seq<Condition>, ys: seq<Condition>)
    requires multiset(xs) == multiset(ys)
    ensures forall c :: c in xs <==> c in ys
  {
    forall c ensures c in xs <==> c in ys {
      assert c in multiset(xs) <==> c in multiset(ys);
    }
  }

  /** And the query has no other entries. */
  lemma EveryEntryIsDeclared(dss: seq<DataSource>, e: Entry)
    returns (ds: DataSource, h: Handler, fs: seq<Option<Filter>>, f: Filter)
    requires Query(dss).Ok? && e in Query(dss).value && DeclaresObjects(dss)
    ensures Declares(dss, ds, h, TRANSACTION_HANDLER, fs) && Some(f) in fs && AsksFor(e, f)
  {
    var es := CompileAll(AllOwned(dss)).entries;
    UniqFromIsPart(es, {}, e);
    CompiledEntries(dss, e);
    ds, h, fs, f :| Declares(dss, ds, h, TRANSACTION_HANDLER, fs) && Some(f) in fs && e == EntryOf(f);
  }

  // ----- Who sees what -----

  /** A filter of the list accepts, and none before it accepts or throws. */
  predicate FirstAccepts(fw: Framework, datum: Datum, fs: seq<Option<Filter>>, i: nat)
    requires i < |fs|
  {
    && Answer(fw, datum, fs[i]) == Ok(true)
    && forall j :: 0 <= j < i ==> Answer(fw, datum, fs[j]) == Ok(false)
  }

  predicate FirstThrows(fw: Framework, datum: Datum, fs: seq<Option<Filter>>, i: nat)
    requires i < |fs|
  {
    && Answer(fw, datum, fs[i]).Err?
    && forall j :: 0 <= j < i ==> Answer(fw, datum, fs[j]) == Ok(false)
  }

  /** Block data are put to block filters, transactions to transaction filters. */
  function Answer(fw: Framework, datum: Datum, filter: Option<Filter>): Result<bool> {
    if datum.OfBlock? then Ok(FilterBlock(datum.block, filter, fw.schedule)) else Accepts(datum.txn, filter)
  }

  ghost predicate SomeAccepts(fw: Framework, datum: Datum, fs: seq<Option<Filter>>) {
    exists i :: 0 <= i < |fs| && FirstAccepts(fw, datum, fs, i)
  }

  ghost predicate SomeThrows(fw: Framework, datum: Datum, fs: seq<Option<Filter>>) {
    exists i :: 0 <= i < |fs| && FirstThrows(fw, datum, fs, i)
  }

  lemma {:induction false} AnyPassesIff(fw: Framework, datum: Datum, fs: seq<Option<Filter>>)
    ensures AnyPasses(fw, datum, fs) == Ok(true) <==> SomeAccepts(fw, datum, fs)
    ensures AnyPasses(fw, datum, fs).Err? <==> SomeThrows(fw, datum, fs)
  {
    if fs != [] {
      AnyPassesIff(fw, datum, fs[1..]);
      assert FilterDatum(fw, datum, fs[0]) == Answer(fw, datum, fs[0]);
      match Answer(fw, datum, fs[0])
      case Err(_) => assert FirstThrows(fw, datum, fs, 0);
      case Ok(accepted) =>
        if accepted {
          assert FirstAccepts(fw, datum, fs, 0);
        } else {
          LaterAccepts(fw, datum, fs);
          LaterThrows(fw, datum, fs);
        }
    }
  }

  lemma LaterAccepts(fw: Framework, datum: Datum, fs: seq<Option<Filter>>)
    requires fs != [] && Answer(fw, datum, fs[0]) == Ok(false)
    ensures SomeAccepts(fw, datum, fs) <==> SomeAccepts(fw, datum, fs[1..])
  {
    if i :| 0 <= i < |fs[1..]| && FirstAccepts(fw, datum, fs[1..], i) {
      assert forall j :: 0 < j < i + 1 ==> fs[j] == fs[1..][j - 1];
      assert FirstAccepts(fw, datum, fs, i + 1);
    }
    if i :| 0 <= i < |fs| && FirstAccepts(fw, datum, fs, i) {
      assert FirstAccepts(fw, datum, fs[1..], i - 1);
    }
  }

  lemma LaterThrows(fw: Framework, datum: Datum, fs: seq<Option<Filter>>)
    requires fs != [] && Answer(fw, datum, fs[0]) == Ok(false)
    ensures SomeThrows(fw, datum, fs) <==> SomeThrows(fw, datum, fs[1..])
  {
    if i :| 0 <= i < |fs[1..]| && FirstThrows(fw, datum, fs[1..], i) {
      assert forall j :: 0 < j < i + 1 ==> fs[j] == fs[1..][j - 1];
      assert FirstThrows(fw, datum, fs, i + 1);
    }
    if i :| 0 <= i < |fs| && FirstThrows(fw, datum, fs, i) {
      assert FirstThrows(fw, datum, fs[1..], i - 1);
    }
  }

  predicate FitsKind(datum: Datum, kind: string) {
    kind == if datum.OfBlock? then BLOCK_HANDLER else TRANSACTION_HANDLER
  }

  /** A handler sees what a filter of its kind accepts first, if its plugin lets it; other data it never sees. */
  lemma HandlerSees(fw: Framework, ds: DataSource, h: Handler, kind: string, fs: seq<Option<Filter>>, datum: Datum)
    requires HasKind(ds, h, kind) && HasFilters(ds, h, fs)
    ensures !FitsKind(datum, kind) ==> Passes(fw, ds, h, datum) == Ok(false)
    ensures FitsKind(datum, kind) ==>
      && (Passes(fw, ds, h, datum).Err? <==> SomeThrows(fw, datum, fs))
      && (Passes(fw, ds, h, datum) == Ok(true) <==>
        SomeAccepts(fw, datum, fs) && (ds.kind == RUNTIME || fw.processorPasses(ds, h, datum)))
  {
    KindIsDeclared(ds, h, kind);
    FiltersAreDeclared(ds, h, kind);
    AnyPassesIff(fw, datum, fs);
  }
}
