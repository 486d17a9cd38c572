/** Data sources and their handlers. */
module DataSources {
  import opened Values
  import opened Filters

  const RUNTIME: string := "algorand/Runtime"
  const BLOCK_HANDLER: string := "algorand/BlockHandler"
  const TRANSACTION_HANDLER: string := "algorand/TransactionHandler"

  datatype Handler = Handler(name: string, kind: string, filter: Option<Filter>)

  /** A custom handler's base filter: one filter or a list, any of them possibly undefined. */
  datatype BaseFilter = Single(filter: Option<Filter>) | Many(filters: seq<Option<Filter>>)

  datatype HandlerProcessor = HandlerProcessor(baseHandlerKind: Option<string>, baseFilter: BaseFilter)

  /** `processors` are those of the plugin; only a data source with a `processor` has them. */
  datatype DataSource = DataSource(
    kind: string,
    processors: Option<map<string, HandlerProcessor>>,
    handlers: seq<Handler>)

  predicate IsRuntimeDs(ds: DataSource) {
    ds.kind == RUNTIME
  }

  predicate IsCustomDs(ds: DataSource) {
    ds.kind != RUNTIME && ds.processors.Some?
  }

  predicate IsBaseHandler(h: Handler) {
    h.kind == BLOCK_HANDLER || h.kind == TRANSACTION_HANDLER
  }

  /** `getBaseHandlerKind`. */
  function GetBaseHandlerKind(ds: DataSource, h: Handler): Result<string> {
    if IsRuntimeDs(ds) && IsBaseHandler(h) then Ok(h.kind)
    else if IsCustomDs(ds) && !IsBaseHandler(h) then
      if h.kind !in ds.processors.value then Err(UnknownHandlerKind)
      else
        match ds.processors.value[h.kind].baseHandlerKind
        case None => Err(UnknownHandlerKind)
        case Some(kind) => if kind == "" then Err(UnknownHandlerKind) else Ok(kind)
    else Err(UnknownHandlerKind)
  }

  /** The filters a handler's data must pass one of. */
  function BaseFilters(ds: DataSource, h: Handler): seq<Option<Filter>> {
    if !IsCustomDs(ds) then [h.filter]
    else if h.kind !in ds.processors.value then []
    else
      match ds.processors.value[h.kind].baseFilter
      case Single(f) => [f]
      case Many(fs) => fs
  }

  /** `filterList.filter(Boolean)`. */
  function Defined(filters: seq<Option<Filter>>): (fs: seq<Filter>)
    ensures forall f :: f in fs <==> Some(f) in filters
  {
    if filters == [] then []
    else
      assert filters == [filters[0]] + filters[1..];
      (if filters[0].Some? then [filters[0].value] else []) + Defined(filters[1..])
  }
}
