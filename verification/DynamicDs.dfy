/** `updateDynamicDs`: narrowing a data source that is created while indexing. */
module DynamicDs {
  import opened Values
  import opened Filters
  import opened DataSources
  import opened Dictionary
  import opened Uniq
  import opened QueryEntries
  import opened IndexerManager

  /** A filter with its `txType` replaced by `appl`. */
  function WithAppl(filter: Option<Filter>): Filter {
    Put(match filter case Some(fs) => fs case None => [], "txType", Str("appl"))
  }

  function NarrowHandler(h: Handler): Handler {
    h.(filter := Some(WithAppl(h.filter)))
  }

  function NarrowAll(hs: seq<Handler>): seq<Handler> {
    if hs == [] then [] else [NarrowHandler(hs[0])] + NarrowAll(hs[1..])
  }

  function Narrow(ds: DataSource): DataSource {
    ds.(handlers := NarrowAll(ds.handlers))
  }

  /** `{...options, ...args}`. */
  function Merge(options: seq<Field>, args: seq<Field>): seq<Field>
    decreases |args|
  {
    if args == [] then options else Merge(Put(options, args[0].key, args[0].val), args[1..])
  }

  /** Every key has its value in the arguments, or failing that, the old one. */
  lemma {:induction false} MergePrefersArgs(options: seq<Field>, args: seq<Field>, key: string)
    requires DistinctKeys(args)
    ensures Find(Merge(options, args), key) == if HasKey(args, key) then Find(args, key) else Find(options, key)
    ensures HasKey(Merge(options, args), key) <==> HasKey(args, key) || HasKey(options, key)
    decreases |args|
  {
    if args != [] {
      MergePrefersArgs(Put(options, args[0].key, args[0].val), args[1..], key);
    }
  }

  /** Narrowing changes nothing but `txType`: kinds, names and all other filter properties stay. */
  lemma NarrowKeepsTheRest(ds: DataSource, i: nat, key: string)
    requires i < |ds.handlers|
    ensures |Narrow(ds).handlers| == |ds.handlers|
    ensures Narrow(ds).kind == ds.kind && Narrow(ds).processors == ds.processors
    ensures var h, h' := ds.handlers[i], Narrow(ds).handlers[i];
      && h'.name == h.name && h'.kind == h.kind && h'.filter.Some?
      && Find(h'.filter.value, "txType") == Str("appl")
      && (key != "txType" ==>
        Find(h'.filter.value, key) == if h.filter.Some? then Find(h.filter.value, key) else Undefined)
  {
    NarrowAllAt(ds.handlers);
  }

  class HandlerObject {
    const name: string
    const kind: string
    var filter: Option<Filter>

    constructor (h: Handler)
      ensures name == h.name && kind == h.kind && filter == h.filter
    {
      name, kind, filter := h.name, h.kind, h.filter;
    }

    /** `handler.filter = {...handler.filter, txType}`, for a filter that was narrowed before or not. */
    method Narrow(ghost first: Option<Filter>)
      requires filter == first || filter == Some(WithAppl(first))
      modifies this
      ensures filter == Some(WithAppl(first))
    {
      ApplTwice(first);
      filter := Some(WithAppl(filter));
    }
  }

  class DataSourceObject {
    const kind: string
    const processors: Option<map<string, HandlerProcessor>>
    const handlers: seq<HandlerObject>
    var options: seq<Field>

    constructor (
      kind: string,
      processors: Option<map<string, HandlerProcessor>>,
      handlers: seq<HandlerObject>,
      options: seq<Field>)
      ensures this.kind == kind && this.processors == processors
      ensures this.handlers == handlers && this.options == options
    {
      this.kind, this.processors := kind, processors;
      this.handlers, this.options := handlers, options;
    }

    /** The data source the rest of the node sees. */
    function Snapshot(): DataSource
      reads handlers
    {
      DataSource(kind, processors, HandlersFrom(0))
    }

    function HandlersFrom(k: nat): (hs: seq<Handler>)
      requires k <= |handlers|
      reads handlers
      ensures |hs| == |handlers| - k
      ensures forall i :: 0 <= i < |hs| ==>
        hs[i] == Handler(handlers[k + i].name, handlers[k + i].kind, handlers[k + i].filter)
      decreases |handlers| - k
    {
      if k == |handlers| then []
      else [Handler(handlers[k].name, handlers[k].kind, handlers[k].filter)] + HandlersFrom(k + 1)
    }

    /** A handler object may be listed twice; narrowing it twice does no harm. */
    method UpdateDynamicDs(args: seq<Field>)
      modifies this`options, handlers
      ensures IsCustomDs(old(Snapshot())) ==> options == Merge(old(options), args) && Snapshot() == old(Snapshot())
      ensures IsRuntimeDs(old(Snapshot())) ==> options == old(options) && Snapshot() == Narrow(old(Snapshot()))
      ensures !IsCustomDs(old(Snapshot())) && !IsRuntimeDs(old(Snapshot())) ==>
        options == old(options) && Snapshot() == old(Snapshot())
    {
      if IsCustomDs(Snapshot()) {
        options := Merge(options, args);
      } else if IsRuntimeDs(Snapshot()) {
        NarrowHandlers();
      }
    }

    method NarrowHandlers()
      modifies handlers
      ensures Snapshot() == Narrow(old(Snapshot()))
    {
      ghost var before := HandlersFrom(0);
      NarrowObjects();
      NarrowAllAt(before);
      assert HandlersFrom(0) == NarrowAll(before);
    }

    /** The `forEach`. */
    method NarrowObjects()
      modifies handlers
      ensures forall h :: h in handlers ==> h.filter == Some(WithAppl(old(h.filter)))
    {
      for i := 0 to |handlers|
        invariant forall j :: 0 <= j < i ==> handlers[j].filter == Some(WithAppl(old(handlers[j].filter)))
        invariant forall j :: i <= j < |handlers| ==>
          handlers[j].filter == old(handlers[j].filter) || handlers[j].filter == Some(WithAppl(old(handlers[j].filter)))
      {
        handlers[i].Narrow(old(handlers[i].filter));
      }
    }
  }

  lemma {:induction false} NarrowAllAt(hs: seq<Handler>)
    ensures |NarrowAll(hs)| == |hs|
    ensures forall i :: 0 <= i < |hs| ==> NarrowAll(hs)[i] == NarrowHandler(hs[i])
  {
    if hs != [] {
      NarrowAllAt(hs[1..]);
    }
  }

  lemma {:induction false} PutTwice(fs: seq<Field>, key: string, val: Js)
    ensures Put(Put(fs, key, val), key, val) == Put(fs, key, val)
  {
    if fs != [] && fs[0].key != key {
      PutTwice(fs[1..], key, val);
      assert Put(fs, key, val)[1..] == Put(fs[1..], key, val);
    }
  }

  lemma ApplTwice(filter: Option<Filter>)
    ensures WithAppl(Some(WithAppl(filter))) == WithAppl(filter)
  {
    PutTwice(match filter case Some(fs) => fs case None => [], "txType", Str("appl"));
  }

  /** Narrowing twice is narrowing once. */
  lemma NarrowTwice(ds: DataSource)
    ensures Narrow(Narrow(ds)) == Narrow(ds)
  {
    NarrowAllTwice(ds.handlers);
  }

  lemma {:induction false} NarrowAllTwice(hs: seq<Handler>)
    ensures NarrowAll(NarrowAll(hs)) == NarrowAll(hs)
  {
    if hs != [] {
      ApplTwice(hs[0].filter);
      NarrowAllTwice(hs[1..]);
      assert NarrowAll(hs)[1..] == NarrowAll(hs[1..]);
    }
  }

  // ----- What narrowing does to the query -----

  lemma ApplCondition(filter: Option<Filter>)
    ensures Condition("txType", Str("appl")) in Conditions(WithAppl(filter))
  {
    var f := WithAppl(filter);
    assert HasKey(f, "txType") && Find(f, "txType") == Str("appl");
    assert Field("txType", Str("appl")) in f;
  }

  lemma NarrowedFilters(ds: DataSource, h: Handler)
    requires IsRuntimeDs(ds)
    ensures FilterList(ds, NarrowHandler(h)) == [WithAppl(h.filter)]
  {
    var filters := BaseFilters(ds, NarrowHandler(h));
    assert filters == [Some(WithAppl(h.filter))] && filters[1..] == [];
    assert Defined(filters) == [WithAppl(h.filter)] + Defined(filters[1..]);
  }

  lemma NarrowedCompiles(ds: DataSource, h: Handler)
    requires IsRuntimeDs(ds) && h.kind == TRANSACTION_HANDLER
    ensures CompileHandler(Owned(ds, NarrowHandler(h))) == Push([EntryOf(WithAppl(h.filter))])
  {
    NarrowedFilters(ds, h);
    var fs := FilterList(ds, NarrowHandler(h));
    assert fs[1..] == [] && EntriesOf(fs) == [EntryOf(fs[0])] + EntriesOf(fs[1..]);
  }

  /** Each entry is that of a narrowed filter. */
  predicate ApplEntries(es: seq<Entry>) {
    forall e :: e in es ==> Condition("txType", Str("appl")) in e.conditions
  }

  /** A Block handler that indexing by query can step by. */
  predicate HasModulo(h: Handler) {
    h.filter.Some? && !LacksModulo(h.filter.value)
  }

  lemma NarrowedBlockCompiles(ds: DataSource, h: Handler)
    requires IsRuntimeDs(ds) && h.kind == BLOCK_HANDLER
    ensures CompileHandler(Owned(ds, NarrowHandler(h))) == if HasModulo(h) then Push([]) else NoQuery
  {
    NarrowedFilters(ds, h);
    assert LacksModulo(WithAppl(h.filter)) <==> !HasModulo(h);
  }

  /** From handler k on, every Block handler has a modulo. */
  predicate BlocksHaveModulo(ds: DataSource, k: nat) {
    forall i :: k <= i < |ds.handlers| && ds.handlers[i].kind == BLOCK_HANDLER ==> HasModulo(ds.handlers[i])
  }

  predicate SomeTransactionHandler(ds: DataSource, k: nat) {
    exists i :: k <= i < |ds.handlers| && ds.handlers[i].kind == TRANSACTION_HANDLER
  }

  lemma {:induction false} NarrowedCompileAll(ds: DataSource, k: nat)
    requires IsRuntimeDs(ds) && k <= |ds.handlers|
    requires forall h :: h in ds.handlers ==> IsBaseHandler(h)
    ensures |Narrow(ds).handlers| == |ds.handlers|
    ensures var r := CompileAll(OwnedFrom(Narrow(ds), k));
      if BlocksHaveModulo(ds, k)
      then r.Push? && ApplEntries(r.entries) && (r.entries != [] <==> SomeTransactionHandler(ds, k))
      else r == NoQuery
    decreases |ds.handlers| - k
  {
    NarrowAllAt(ds.handlers);
    if k < |ds.handlers| {
      var h := ds.handlers[k];
      NarrowedCompileAll(ds, k + 1);
      var os := OwnedFrom(Narrow(ds), k);
      assert os[0] == Owned(Narrow(ds), NarrowHandler(h)) && os[1..] == OwnedFrom(Narrow(ds), k + 1);
      assert h in ds.handlers;
      if h.kind == BLOCK_HANDLER {
        NarrowedBlockCompiles(Narrow(ds), h);
        assert BlocksHaveModulo(ds, k) <==> HasModulo(h) && BlocksHaveModulo(ds, k + 1);
      } else {
        NarrowedCompiles(Narrow(ds), h);
        ApplCondition(h.filter);
        assert SomeTransactionHandler(ds, k);
      }
    }
  }

  /**
   * The query of a narrowed data source asks for `appl` throughout, and there is one exactly when
   * there is a Transaction handler and every Block handler has a modulo.
   */
  lemma NarrowedQuery(ds: DataSource)
    requires IsRuntimeDs(ds) && forall h :: h in ds.handlers ==> IsBaseHandler(h)
    ensures var q := Query([Narrow(ds)]);
      && q.Ok? && ApplEntries(q.value)
      && (q.value != [] <==>
        && (exists h :: h in ds.handlers && h.kind == TRANSACTION_HANDLER)
        && (forall h :: h in ds.handlers && h.kind == BLOCK_HANDLER ==> HasModulo(h)))
  {
    NarrowedCompileAll(ds, 0);
    var dss := [Narrow(ds)];
    assert dss[1..] == [] && AllOwned(dss) == OwnedFrom(Narrow(ds), 0) + [];
    assert AllOwned(dss) == OwnedFrom(Narrow(ds), 0);
    if BlocksHaveModulo(ds, 0) {
      var es := CompileAll(AllOwned(dss)).entries;
      forall e | e in UniqBy(es) ensures e in es {
        UniqFromIsPart(es, {}, e);
      }
    }
  }

  // ----- What narrowing does to a handler -----

  /** A filter without its `txType`. */
  function WithoutType(fs: Filter): Filter {
    if fs == [] then []
    else if fs[0].key == "txType" then WithoutType(fs[1..])
    else [fs[0]] + WithoutType(fs[1..])
  }

  lemma {:induction false} PutTypeIsNoField(txn: Js, fs: Filter, txType: Js)
    ensures CheckFields(txn, Put(fs, "txType", txType)) == CheckFields(txn, fs)
  {
    var put := Put(fs, "txType", txType);
    if fs == [] {
      assert put[1..] == [];
    } else if fs[0].key == "txType" {
      assert put[1..] == fs[1..];
    } else {
      PutTypeIsNoField(txn, fs[1..], txType);
      assert put[1..] == Put(fs[1..], "txType", txType);
    }
  }

  lemma {:induction false} WithoutTypeIsNoField(txn: Js, fs: Filter)
    ensures CheckFields(txn, WithoutType(fs)) == CheckFields(txn, fs)
    ensures !HasKey(WithoutType(fs), "txType")
  {
    if fs != [] {
      WithoutTypeIsNoField(txn, fs[1..]);
      if fs[0].key != "txType" {
        assert WithoutType(fs)[1..] == WithoutType(fs[1..]);
      }
    }
  }

  /** A narrowed filter accepts the `appl` transactions its other properties accept. */
  lemma NarrowedFilterAccepts(txn: Js, fs: Filter)
    ensures Accepts(txn, Some(Put(fs, "txType", Str("appl"))))
         == if Lookup(txn, "txType") != Str("appl") then Ok(false) else Accepts(txn, Some(WithoutType(fs)))
  {
    PutTypeIsNoField(txn, fs, Str("appl"));
    WithoutTypeIsNoField(txn, fs);
    assert Find(WithoutType(fs), "txType") == Undefined;
  }

  lemma PassesItsOnlyFilter(fw: Framework, ds: DataSource, h: Handler, f: Filter, txn: Js)
    requires IsRuntimeDs(ds) && h.kind == TRANSACTION_HANDLER && h.filter == Some(f)
    ensures Passes(fw, ds, h, OfTransaction(txn)) == Accepts(txn, Some(f))
  {
    OneFilter(fw, OfTransaction(txn), f);
  }

  /** A narrowed handler sees exactly the `appl` transactions its filter accepts without its old type. */
  lemma NarrowedHandlerSees(fw: Framework, ds: DataSource, h: Handler, txn: Js)
    requires IsRuntimeDs(ds) && h.kind == TRANSACTION_HANDLER
    ensures Passes(fw, ds, NarrowHandler(h), OfTransaction(txn))
         == if Lookup(txn, "txType") != Str("appl") then Ok(false)
            else Accepts(txn, match h.filter case Some(fs) => Some(WithoutType(fs)) case None => None)
  {
    PassesItsOnlyFilter(fw, ds, NarrowHandler(h), WithAppl(h.filter), txn);
    match h.filter {
      case Some(fs) => NarrowedFilterAccepts(txn, fs);
      case None => NarrowedFilterAccepts(txn, []);
    }
  }
}
