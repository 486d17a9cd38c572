/** `buildDictionaryV1QueryEntries`: the query for a whole project, or none. */
module QueryEntries {
  import opened Values
  import opened Filters
  import opened DataSources
  import opened Dictionary
  import opened Uniq

  /** What one handler contributes. An empty query means that the dictionary is not used. */
  datatype Outcome = Threw(error: Error) | NoQuery | Push(entries: seq<Entry>)

  /** A handler with its data source. */
  datatype Owned = Owned(ds: DataSource, handler: Handler)

  function OwnedFrom(ds: DataSource, k: nat): seq<Owned>
    requires k <= |ds.handlers|
    decreases |ds.handlers| - k
  {
    if k == |ds.handlers| then [] else [Owned(ds, ds.handlers[k])] + OwnedFrom(ds, k + 1)
  }

  /** All handlers of a project, in order. */
  function AllOwned(dss: seq<DataSource>): seq<Owned> {
    if dss == [] then [] else OwnedFrom(dss[0], 0) + AllOwned(dss[1..])
  }

  lemma {:induction false} OwnedMember(ds: DataSource, k: nat, i: nat)
    requires k <= i < |ds.handlers|
    ensures Owned(ds, ds.handlers[i]) in OwnedFrom(ds, k)
    decreases |ds.handlers| - k
  {
    if k < i {
      OwnedMember(ds, k + 1, i);
    }
  }

  lemma {:induction false} AllOwnedMember(dss: seq<DataSource>, d: nat, i: nat)
    requires d < |dss| && i < |dss[d].handlers|
    ensures Owned(dss[d], dss[d].handlers[i]) in AllOwned(dss)
  {
    if d == 0 {
      OwnedMember(dss[0], 0, i);
    } else {
      AllOwnedMember(dss[1..], d - 1, i);
    }
  }

  lemma {:induction false} OwnedFromIs(ds: DataSource, k: nat, o: Owned)
    requires k <= |ds.handlers| && o in OwnedFrom(ds, k)
    ensures o.ds == ds && o.handler in ds.handlers
    decreases |ds.handlers| - k
  {
    if o != Owned(ds, ds.handlers[k]) {
      OwnedFromIs(ds, k + 1, o);
    }
  }

  lemma {:induction false} AllOwnedIs(dss: seq<DataSource>, o: Owned)
    requires o in AllOwned(dss)
    ensures o.ds in dss && o.handler in o.ds.handlers
  {
    if o in OwnedFrom(dss[0], 0) {
      OwnedFromIs(dss[0], 0, o);
    } else {
      AllOwnedIs(dss[1..], o);
    }
  }

  /** The defined filters of a handler. A runtime handler without a filter has none. */
  function FilterList(ds: DataSource, h: Handler): seq<Filter> {
    Defined(BaseFilters(ds, h))
  }

  function EntriesOf(fs: seq<Filter>): seq<Entry> {
    if fs == [] then [] else [EntryOf(fs[0])] + EntriesOf(fs[1..])
  }

  lemma {:induction false} EntriesOfMembers(fs: seq<Filter>)
    ensures forall f :: f in fs ==> EntryOf(f) in EntriesOf(fs)
    ensures forall e :: e in EntriesOf(fs) ==> exists f :: f in fs && e == EntryOf(f)
  {
    if fs != [] {
      EntriesOfMembers(fs[1..]);
      assert fs == [fs[0]] + fs[1..];
    }
  }

  predicate LacksModulo(f: Filter) {
    Find(f, "modulo") == Undefined
  }

  function CompileHandler(o: Owned): Outcome {
    match GetBaseHandlerKind(o.ds, o.handler)
    case Err(e) => Threw(e)
    case Ok(kind) =>
      var fs := FilterList(o.ds, o.handler);
      if fs == [] then NoQuery
      else if kind == BLOCK_HANDLER then
        if exists f :: f in fs && LacksModulo(f) then NoQuery else Push([])
      else if kind == TRANSACTION_HANDLER then Push(EntriesOf(fs))
      else Push([])
  }

  /** The first handler that throws or rules the dictionary out decides. */
  function CompileAll(os: seq<Owned>): Outcome {
    if os == [] then Push([])
    else
      var first := CompileHandler(os[0]);
      if !first.Push? then first
      else
        var rest := CompileAll(os[1..]);
        if !rest.Push? then rest else Push(first.entries + rest.entries)
  }

  /** Entries collected so far, put before what is still to come. */
  function After(es: seq<Entry>, rest: Outcome): Outcome {
    if rest.Push? then Push(es + rest.entries) else rest
  }

  function Finish(o: Outcome): Result<seq<Entry>> {
    match o
    case Threw(e) => Err(e)
    case NoQuery => Ok([])
    case Push(es) => Ok(UniqBy(es))
  }

  /** The query of a project. */
  function Query(dss: seq<DataSource>): Result<seq<Entry>> {
    Finish(CompileAll(AllOwned(dss)))
  }

  /** The body of the loop over handlers: the entries grow, or the compilation ends here. */
  method VisitHandler(o: Owned, queryEntries: seq<Entry>) returns (r: Outcome)
    ensures r == After(queryEntries, CompileHandler(o))
  {
    assert queryEntries + [] == queryEntries;
    var kind := GetBaseHandlerKind(o.ds, o.handler);
    if kind.Err? {
      return Threw(kind.error);
    }
    var filterList := FilterList(o.ds, o.handler);
    if |filterList| == 0 {
      return NoQuery;
    }
    if kind.value == BLOCK_HANDLER {
      var lacking := AnyLacksModulo(filterList);
      return if lacking then NoQuery else Push(queryEntries);
    }
    if kind.value == TRANSACTION_HANDLER {
      var grown := PushEntries(queryEntries, filterList);
      return Push(grown);
    }
    return Push(queryEntries);
  }

  method AnyLacksModulo(filterList: seq<Filter>) returns (lacking: bool)
    ensures lacking <==> exists f :: f in filterList && LacksModulo(f)
  {
    for i := 0 to |filterList|
      invariant forall j :: 0 <= j < i ==> !LacksModulo(filterList[j])
    {
      if LacksModulo(filterList[i]) {
        return true;
      }
    }
    return false;
  }

  method PushEntries(queryEntries: seq<Entry>, filterList: seq<Filter>) returns (grown: seq<Entry>)
    ensures grown == queryEntries + EntriesOf(filterList)
  {
    grown := queryEntries;
    for i := 0 to |filterList|
      invariant queryEntries + EntriesOf(filterList) == grown + EntriesOf(filterList[i..])
    {
      assert filterList[i..][1..] == filterList[i + 1..];
      grown := grown + [EntryOf(filterList[i])];
    }
  }

  method BuildDictionaryV1QueryEntries(dss: seq<DataSource>) returns (r: Result<seq<Entry>>)
    ensures r == Query(dss)
  {
    var queryEntries: seq<Entry> := [];
    for d := 0 to |dss|
      invariant CompileAll(AllOwned(dss)) == After(queryEntries, CompileAll(AllOwned(dss[d..])))
    {
      var ds := dss[d];
      ghost var later := AllOwned(dss[d + 1..]);
      assert dss[d..][1..] == dss[d + 1..];
      for k := 0 to |ds.handlers|
        invariant CompileAll(AllOwned(dss)) == After(queryEntries, CompileAll(OwnedFrom(ds, k) + later))
      {
        var o := Owned(ds, ds.handlers[k]);
        ghost var rest := OwnedFrom(ds, k + 1) + later;
        assert OwnedFrom(ds, k) + later == [o] + rest;
        CompileCons(o, rest, queryEntries);
        var visited := VisitHandler(o, queryEntries);
        if !visited.Push? {
          return Finish(visited);
        }
        queryEntries := visited.entries;
      }
      assert OwnedFrom(ds, |ds.handlers|) + later == later;
    }
    assert queryEntries + [] == queryEntries;
    return Ok(UniqBy(queryEntries));
  }

  lemma CompileCons(o: Owned, rest: seq<Owned>, es: seq<Entry>)
    ensures After(es, CompileAll([o] + rest))
         == if CompileHandler(o).Push? then After(es + CompileHandler(o).entries, CompileAll(rest))
            else CompileHandler(o)
  {
    assert ([o] + rest)[1..] == rest;
  }

  // ----- What a query says about every handler -----

  /** All filters of a project have distinct properties, as JavaScript objects do. */
  predicate WellFormed(dss: seq<DataSource>) {
    forall o :: o in AllOwned(dss) ==>
      forall f :: f in FilterList(o.ds, o.handler) ==> DistinctKeys(f)
  }

  lemma {:induction false} EntryOfIsDistinct(f: Filter)
    requires DistinctKeys(f)
    ensures DistinctFields(Conditions(f))
  {
    if f != [] {
      EntryOfIsDistinct(f[1..]);
      forall c | c in Conditions(f[1..]) ensures c.field != f[0].key {
        FieldHasKey(f[1..], c);
      }
    }
  }

  lemma {:induction false} FieldHasKey(f: Filter, c: Condition)
    requires c in Conditions(f)
    ensures HasKey(f, c.field)
  {
    if f[0] != Field(c.field, c.value) {
      FieldHasKey(f[1..], c);
    }
  }

  /** A compiled project: every handler has a filter, and every entry comes from one. */
  lemma {:induction false} CompiledHandlers(os: seq<Owned>)
    requires CompileAll(os).Push?
    ensures forall o :: o in os ==> CompileHandler(o).Push?
    ensures forall o, e :: o in os && e in CompileHandler(o).entries ==> e in CompileAll(os).entries
    ensures forall e :: e in CompileAll(os).entries ==>
      exists o, f :: o in os && f in FilterList(o.ds, o.handler) && e == EntryOf(f)
  {
    if os != [] {
      CompiledHandlers(os[1..]);
      assert os == [os[0]] + os[1..];
      forall e | e in CompileHandler(os[0]).entries
        ensures exists o, f :: o in os && f in FilterList(o.ds, o.handler) && e == EntryOf(f)
      {
        EntriesOfMembers(FilterList(os[0].ds, os[0].handler));
      }
    }
  }

  /** When there is a query, a transaction accepted by a compiled filter is found by it. */
  lemma QueryFindsFilter(txn: Js, dss: seq<DataSource>, o: Owned, f: Filter)
    requires WellFormed(dss) && Query(dss).Ok? && Query(dss).value != []
    requires o in AllOwned(dss) && GetBaseHandlerKind(o.ds, o.handler) == Ok(TRANSACTION_HANDLER)
    requires f in FilterList(o.ds, o.handler) && EntryMatches(txn, EntryOf(f))
    ensures AnyMatches(txn, Query(dss).value)
  {
    var os := AllOwned(dss);
    CompiledHandlers(os);
    var es := CompileAll(os).entries;
    EntriesOfMembers(FilterList(o.ds, o.handler));
    assert EntryOf(f) in CompileHandler(o).entries;
    assert EntryOf(f) in es;
    forall e | e in es ensures DistinctFields(e.conditions) {
      var p, g :| p in os && g in FilterList(p.ds, p.handler) && e == EntryOf(g);
      EntryOfIsDistinct(g);
    }
    assert AnyMatches(txn, es);
    UniqKeepsMeaning(txn, es);
  }

  /** When there is a query, every handler has filters, and those of Block handlers have a modulo. */
  lemma QueryNeedsFilters(dss: seq<DataSource>, o: Owned)
    requires Query(dss).Ok? && Query(dss).value != [] && o in AllOwned(dss)
    ensures FilterList(o.ds, o.handler) != []
    ensures GetBaseHandlerKind(o.ds, o.handler) == Ok(BLOCK_HANDLER) ==>
      forall f :: f in FilterList(o.ds, o.handler) ==> !LacksModulo(f)
  {
    CompiledHandlers(AllOwned(dss));
    assert CompileHandler(o).Push?;
  }

  /** A project with a single Transaction handler compiles to the entry of its filter. */
  lemma LoneFilterQuery(ds: DataSource, h: Handler, f: Filter)
    requires IsRuntimeDs(ds) && ds.handlers == [h]
    requires h.kind == TRANSACTION_HANDLER && h.filter == Some(f)
    ensures AllOwned([ds]) == [Owned(ds, h)] && FilterList(ds, h) == [f]
    ensures Query([ds]) == Ok([EntryOf(f)])
  {
    var o := Owned(ds, h);
    assert [ds][1..] == [] && OwnedFrom(ds, 1) == [] && OwnedFrom(ds, 0) == [o];
    assert AllOwned([ds]) == [o];
    assert [h.filter][1..] == [] && Defined([h.filter]) == [f];
    assert [f][1..] == [] && EntriesOf([f]) == [EntryOf(f)];
    assert CompileHandler(o) == Push([EntryOf(f)]);
    assert [o][1..] == [] && CompileAll([o]) == Push([EntryOf(f)]);
    var es := [EntryOf(f)];
    assert es[1..] == [] && UniqFrom(es, {}) == [es[0]] + UniqFrom(es[1..], {} + {KeyOf(es[0])});
  }

  /** If no handler throws, one handler without a filter is enough to do without the dictionary. */
  lemma {:induction false} OneUnfilteredHandlerDecides(os: seq<Owned>, o: Owned)
    requires forall p :: p in os ==> !CompileHandler(p).Threw?
    requires o in os && FilterList(o.ds, o.handler) == []
    ensures CompileAll(os) == NoQuery
  {
    assert os == [os[0]] + os[1..];
    if CompileHandler(os[0]).Push? {
      OneUnfilteredHandlerDecides(os[1..], o);
    }
  }

  /** Then, however the other filters look, the query is empty. */
  lemma NoFilterNoQuery(dss: seq<DataSource>, o: Owned)
    requires forall p :: p in AllOwned(dss) ==> !CompileHandler(p).Threw?
    requires o in AllOwned(dss) && FilterList(o.ds, o.handler) == []
    ensures Query(dss) == Ok([])
  {
    OneUnfilteredHandlerDecides(AllOwned(dss), o);
  }
}
