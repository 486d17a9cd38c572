/** The trace of a block by positions: every datum, every data source, every handler, in this order. */
module FiringOrder {
  import opened Values
  import opened Blocks
  import opened DataSources
  import opened IndexerManager

  /** A handler of a data source, at its turn to see a datum. */
  datatype Place = Place(datum: nat, source: nat, handler: nat)

  predicate Before(p: Place, q: Place) {
    || p.datum < q.datum
    || (p.datum == q.datum && (p.source < q.source || (p.source == q.source && p.handler < q.handler)))
  }

  predicate InSpan(lo: Place, p: Place, hi: Place) {
    !Before(p, lo) && Before(p, hi)
  }

  /** The block and then its transactions, as often as they occur. */
  function DataOf(block: BlockData, txns: seq<Js>): (data: seq<Datum>)
    ensures |data| == |txns| + 1 && data[0] == OfBlock(block)
    ensures forall i :: 0 <= i < |txns| ==> data[i + 1] == OfTransaction(txns[i])
  {
    [OfBlock(block)] + seq(|txns|, i requires 0 <= i < |txns| => OfTransaction(txns[i]))
  }

  predicate IsPlace(dss: seq<DataSource>, data: seq<Datum>, p: Place) {
    p.datum < |data| && p.source < |dss| && p.handler < |dss[p.source].handlers|
  }

  function FiringAt(dss: seq<DataSource>, data: seq<Datum>, p: Place): Firing
    requires IsPlace(dss, data, p)
  {
    Firing(dss[p.source], dss[p.source].handlers[p.handler], data[p.datum])
  }

  function AnswerAt(fw: Framework, dss: seq<DataSource>, data: seq<Datum>, p: Place): Result<bool>
    requires IsPlace(dss, data, p)
  {
    Passes(fw, dss[p.source], dss[p.source].handlers[p.handler], data[p.datum])
  }

  /** The places are those of the span whose handlers pass, in order and each once, and none throws. */
  ghost predicate Lists(
    fw: Framework, dss: seq<DataSource>, data: seq<Datum>, lo: Place, hi: Place, places: seq<Place>)
  {
    && (forall k :: 0 <= k < |places| ==>
      IsPlace(dss, data, places[k]) && InSpan(lo, places[k], hi) && AnswerAt(fw, dss, data, places[k]) == Ok(true))
    && (forall j, k :: 0 <= j < k < |places| ==> Before(places[j], places[k]))
    && (forall p :: IsPlace(dss, data, p) && InSpan(lo, p, hi) ==>
      AnswerAt(fw, dss, data, p).Ok? && (AnswerAt(fw, dss, data, p).value ==> p in places))
  }

  /** The firings are those at these places. */
  predicate FiresAt(dss: seq<DataSource>, data: seq<Datum>, places: seq<Place>, fired: seq<Firing>) {
    && |fired| == |places|
    && forall k :: 0 <= k < |places| ==> IsPlace(dss, data, places[k]) && fired[k] == FiringAt(dss, data, places[k])
  }

  lemma ListsJoin(fw: Framework, dss: seq<DataSource>, data: seq<Datum>,
    lo: Place, mid: Place, hi: Place, first: seq<Place>, later: seq<Place>)
    requires Lists(fw, dss, data, lo, mid, first) && Lists(fw, dss, data, mid, hi, later)
    requires !Before(mid, lo) && !Before(hi, mid)
    ensures Lists(fw, dss, data, lo, hi, first + later)
  {
    var places := first + later;
    forall j, k | 0 <= j < k < |places| ensures Before(places[j], places[k]) {
      assert j < |first| ==> InSpan(lo, places[j], mid);
      assert k >= |first| ==> places[k] == later[k - |first|] && InSpan(mid, places[k], hi);
    }
    forall p | IsPlace(dss, data, p) && InSpan(lo, p, hi)
      ensures AnswerAt(fw, dss, data, p).Ok? && (AnswerAt(fw, dss, data, p).value ==> p in places)
    {
      assert InSpan(lo, p, mid) || InSpan(mid, p, hi);
    }
  }

  lemma FiresAtJoin(dss: seq<DataSource>, data: seq<Datum>,
    first: seq<Place>, later: seq<Place>, fired: seq<Firing>, more: seq<Firing>)
    requires FiresAt(dss, data, first, fired) && FiresAt(dss, data, later, more)
    ensures FiresAt(dss, data, first + later, fired + more)
  {
  }

  /** One handler. */
  lemma HandlerLists(fw: Framework, dss: seq<DataSource>, data: seq<Datum>, p: Place)
    requires IsPlace(dss, data, p) && AnswerAt(fw, dss, data, p).Ok?
    ensures var places := if AnswerAt(fw, dss, data, p).value then [p] else [];
      Lists(fw, dss, data, p, p.(handler := p.handler + 1), places)
  {
    forall q | IsPlace(dss, data, q) && InSpan(p, q, p.(handler := p.handler + 1)) ensures q == p {
    }
  }

  /** What one handler fires. */
  function FiredBy(fw: Framework, ds: DataSource, h: Handler, datum: Datum): seq<Firing> {
    if Passes(fw, ds, h, datum) == Ok(true) then [Firing(ds, h, datum)] else []
  }

  lemma FireAllFrom(ds: DataSource, h: Handler, rest: seq<Handler>, datum: Datum)
    ensures FireAll(ds, [h] + rest, datum) == [Firing(ds, h, datum)] + FireAll(ds, rest, datum)
  {
  }

  lemma ChosenFires(fw: Framework, ds: DataSource, hs: seq<Handler>, datum: Datum)
    requires hs != [] && Chosen(fw, ds, hs, datum).Ok?
    ensures Passes(fw, ds, hs[0], datum).Ok? && Chosen(fw, ds, hs[1..], datum).Ok?
    ensures FireAll(ds, Chosen(fw, ds, hs, datum).value, datum)
         == FiredBy(fw, ds, hs[0], datum) + FireAll(ds, Chosen(fw, ds, hs[1..], datum).value, datum)
  {
    var rest := Chosen(fw, ds, hs[1..], datum).value;
    if Passes(fw, ds, hs[0], datum).value {
      FireAllFrom(ds, hs[0], rest, datum);
    } else {
      assert [] + rest == rest;
    }
  }

  /** The handlers of a data source from number h on. */
  lemma {:induction false} HandlersList(
    fw: Framework, dss: seq<DataSource>, data: seq<Datum>, p: Place) returns (places: seq<Place>)
    requires p.datum < |data| && p.source < |dss| && p.handler <= |dss[p.source].handlers|
    requires Chosen(fw, dss[p.source], dss[p.source].handlers[p.handler..], data[p.datum]).Ok?
    ensures Lists(fw, dss, data, p, Place(p.datum, p.source + 1, 0), places)
    ensures var hs := Chosen(fw, dss[p.source], dss[p.source].handlers[p.handler..], data[p.datum]).value;
      FiresAt(dss, data, places, FireAll(dss[p.source], hs, data[p.datum]))
    decreases |dss[p.source].handlers| - p.handler
  {
    var ds, next := dss[p.source], p.(handler := p.handler + 1);
    places := [];
    if p.handler < |ds.handlers| {
      var hs := ds.handlers[p.handler..];
      assert hs[0] == ds.handlers[p.handler] && hs[1..] == ds.handlers[next.handler..];
      ChosenFires(fw, ds, hs, data[p.datum]);
      HandlerLists(fw, dss, data, p);
      var first := if AnswerAt(fw, dss, data, p).value then [p] else [];
      var later := HandlersList(fw, dss, data, next);
      ListsJoin(fw, dss, data, p, next, Place(p.datum, p.source + 1, 0), first, later);
      FiresAtJoin(dss, data, first, later, FiredBy(fw, ds, hs[0], data[p.datum]),
        FireAll(ds, Chosen(fw, ds, hs[1..], data[p.datum]).value, data[p.datum]));
      places := first + later;
    }
  }

  /** Some handler of the data source throws on the datum. */
  ghost predicate ThrowsAt(fw: Framework, dss: seq<DataSource>, data: seq<Datum>, p: Place)
    requires p.datum < |data| && p.source < |dss|
  {
    exists h :: h in dss[p.source].handlers && Passes(fw, dss[p.source], h, data[p.datum]).Err?
  }

  lemma {:induction false} ChoiceThrows(fw: Framework, ds: DataSource, hs: seq<Handler>, datum: Datum)
    requires Chosen(fw, ds, hs, datum).Err?
    ensures exists h :: h in hs && Passes(fw, ds, h, datum).Err?
  {
    if Passes(fw, ds, hs[0], datum).Ok? {
      ChoiceThrows(fw, ds, hs[1..], datum);
      var h :| h in hs[1..] && Passes(fw, ds, h, datum).Err?;
      assert h in hs;
    } else {
      assert hs[0] in hs;
    }
  }

  /** Where a run ends: at the end of its span, or before the data source that throws. */
  ghost predicate StopsAt(fw: Framework, dss: seq<DataSource>, data: seq<Datum>, run: Run, stop: Place, hi: Place) {
    if run.thrown then
      && stop.datum < |data| && stop.source < |dss| && stop.handler == 0
      && ThrowsAt(fw, dss, data, stop) && Before(stop, hi)
    else stop == hi
  }

  /** The run fires what passes from `lo` to where it ends. */
  ghost predicate Follows(fw: Framework, dss: seq<DataSource>, data: seq<Datum>,
    lo: Place, hi: Place, run: Run, stop: Place, places: seq<Place>)
  {
    && !Before(stop, lo)
    && StopsAt(fw, dss, data, run, stop, hi)
    && Lists(fw, dss, data, lo, stop, places)
    && FiresAt(dss, data, places, run.fired)
  }

  lemma FollowsThen(fw: Framework, dss: seq<DataSource>, data: seq<Datum>, lo: Place, mid: Place, hi: Place,
    a: Run, first: seq<Place>, b: Run, stop: Place, later: seq<Place>)
    requires Follows(fw, dss, data, lo, mid, a, mid, first) && !a.thrown
    requires Follows(fw, dss, data, mid, hi, b, stop, later)
    ensures Follows(fw, dss, data, lo, hi, Then(a, b), stop, first + later)
  {
    ListsJoin(fw, dss, data, lo, mid, stop, first, later);
    FiresAtJoin(dss, data, first, later, a.fired, b.fired);
  }

  lemma FollowsEnd(fw: Framework, dss: seq<DataSource>, data: seq<Datum>, lo: Place, mid: Place, hi: Place,
    a: Run, b: Run, stop: Place, places: seq<Place>)
    requires Follows(fw, dss, data, lo, mid, a, stop, places) && a.thrown && !Before(hi, mid)
    ensures Follows(fw, dss, data, lo, hi, Then(a, b), stop, places)
  {
  }

  /** One data source. */
  lemma SourceFollows(fw: Framework, dss: seq<DataSource>, data: seq<Datum>, lo: Place)
    returns (stop: Place, places: seq<Place>)
    requires lo.datum < |data| && lo.source < |dss| && lo.handler == 0
    ensures Follows(fw, dss, data, lo, Place(lo.datum, lo.source + 1, 0),
      IndexData(fw, dss[lo.source], data[lo.datum]), stop, places)
  {
    var ds := dss[lo.source];
    assert ds.handlers[0..] == ds.handlers;
    if Chosen(fw, ds, ds.handlers, data[lo.datum]).Ok? {
      stop := Place(lo.datum, lo.source + 1, 0);
      places := HandlersList(fw, dss, data, lo);
    } else {
      ChoiceThrows(fw, ds, ds.handlers, data[lo.datum]);
      stop, places := lo, [];
    }
  }

  /** The data sources from one on. */
  lemma {:induction false} SourcesFollow(fw: Framework, dss: seq<DataSource>, data: seq<Datum>, lo: Place)
    returns (stop: Place, places: seq<Place>)
    requires lo.datum < |data| && lo.source <= |dss| && lo.handler == 0
    ensures Follows(fw, dss, data, lo, Place(lo.datum + 1, 0, 0),
      IndexSources(fw, dss[lo.source..], data[lo.datum]), stop, places)
    decreases |dss| - lo.source
  {
    var hi := Place(lo.datum + 1, 0, 0);
    stop, places := hi, [];
    if lo.source < |dss| {
      var mid := Place(lo.datum, lo.source + 1, 0);
      assert dss[lo.source..][0] == dss[lo.source] && dss[lo.source..][1..] == dss[mid.source..];
      var here := IndexData(fw, dss[lo.source], data[lo.datum]);
      var rest := IndexSources(fw, dss[mid.source..], data[lo.datum]);
      stop, places := SourceFollows(fw, dss, data, lo);
      if here.thrown {
        FollowsEnd(fw, dss, data, lo, mid, hi, here, rest, stop, places);
      } else {
        var first := places;
        var later;
        stop, later := SourcesFollow(fw, dss, data, mid);
        FollowsThen(fw, dss, data, lo, mid, hi, here, first, rest, stop, later);
        places := first + later;
      }
    }
  }

  /** The transactions from one on. */
  lemma {:induction false} TransactionsFollow(
    fw: Framework, dss: seq<DataSource>, block: BlockData, txns: seq<Js>, i: nat)
    returns (stop: Place, places: seq<Place>)
    requires i <= |txns|
    ensures Follows(fw, dss, DataOf(block, txns), Place(i + 1, 0, 0), Place(|txns| + 1, 0, 0),
      IndexTransactions(fw, dss, txns[i..]), stop, places)
    decreases |txns| - i
  {
    var data, lo, hi := DataOf(block, txns), Place(i + 1, 0, 0), Place(|txns| + 1, 0, 0);
    stop, places := hi, [];
    if i < |txns| {
      var mid := Place(i + 2, 0, 0);
      assert txns[i..][0] == txns[i] && txns[i..][1..] == txns[i + 1..] && dss[0..] == dss;
      var here, rest := IndexSources(fw, dss, OfTransaction(txns[i])), IndexTransactions(fw, dss, txns[i + 1..]);
      stop, places := SourcesFollow(fw, dss, data, lo);
      if here.thrown {
        FollowsEnd(fw, dss, data, lo, mid, hi, here, rest, stop, places);
      } else {
        var first := places;
        var later;
        stop, later := TransactionsFollow(fw, dss, block, txns, i + 1);
        FollowsThen(fw, dss, data, lo, mid, hi, here, first, rest, stop, later);
        places := first + later;
      }
    }
  }

  /**
   * Indexing a block fires at exactly the places whose handlers pass, once each: first the block,
   * then its transactions in order, each on the data sources in order, each on their handlers in
   * order. If a handler throws, its data source fires nothing and nothing fires after it.
   */
  lemma BlockFiresInOrder(fw: Framework, dss: seq<DataSource>, block: BlockData, txns: seq<Js>)
    returns (stop: Place, places: seq<Place>)
    requires block.transactions == Some(txns) || (block.transactions == None && txns == [])
    ensures Follows(fw, dss, DataOf(block, txns), Place(0, 0, 0), Place(|txns| + 1, 0, 0),
      IndexBlock(fw, dss, block), stop, places)
  {
    var data, lo, mid, hi := DataOf(block, txns), Place(0, 0, 0), Place(1, 0, 0), Place(|txns| + 1, 0, 0);
    assert txns[0..] == txns && dss[0..] == dss;
    var here, rest := IndexSources(fw, dss, OfBlock(block)), IndexTransactions(fw, dss, txns);
    stop, places := SourcesFollow(fw, dss, data, lo);
    if here.thrown {
      FollowsEnd(fw, dss, data, lo, mid, hi, here, rest, stop, places);
    } else {
      var first := places;
      var later;
      stop, later := TransactionsFollow(fw, dss, block, txns, 0);
      FollowsThen(fw, dss, data, lo, mid, hi, here, first, rest, stop, later);
      places := first + later;
    }
  }
}
