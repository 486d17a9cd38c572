/** Handler filters: `filterTransaction`, `txComparator` and `filterBlock`. */
module Filters {
  import opened Values
  import opened Blocks

  /** A filter object: its own properties in order. */
  type Filter = seq<Field>

  /** The paths of `mappingFilterTransaction`; a type it lacks has no entry. */
  function PathOf(txType: string, key: string): Option<seq<string>> {
    if txType == "pay" then
      if key == "sender" then Some(["sender"])
      else if key == "receiver" then Some(["paymentTransaction", "receiver"])
      else None
    else if txType == "keyreg" then
      if key == "nonParticipant" then Some(["keyregTransaction", "nonParticipation"])
      else if key == "sender" then Some(["sender"])
      else None
    else if txType == "acfg" then
      if key == "assetId" then Some(["assetConfigTransaction", "assetId"])
      else if key == "sender" then Some(["sender"])
      else None
    else if txType == "axfer" then
      if key == "assetId" then Some(["assetTransferTransaction", "assetId"])
      else if key == "sender" then Some(["sender"])
      else if key == "receiver" then Some(["assetTransferTransaction", "receiver"])
      else None
    else if txType == "afrz" then
      if key == "assetId" then Some(["assetFreezeTransaction", "assetId"])
      else if key == "newFreezeStatus" then Some(["assetFreezeTransaction", "newFreezeStatus"])
      else if key == "address" then Some(["sender"])
      else None
    else if txType == "appl" then
      if key == "applicationId" then Some(["applicationTransaction", "applicationId"])
      else if key == "applicationArgs" then Some(["applicationTransaction", "applicationArgs"])
      else if key == "sender" then Some(["sender"])
      else None
    else None
  }

  predicate IsMapped(txType: Js) {
    txType in {Str("pay"), Str("keyreg"), Str("acfg"), Str("axfer"), Str("afrz"), Str("appl")}
  }

  /** What `get(txn, mapping[txType][key])` reads; an unmapped key makes it read `undefined`. */
  function Project(txn: Js, key: string): Js {
    var txType := Lookup(txn, "txType");
    match (if txType.Str? then PathOf(txType.s, key) else None)
    case Some(path) => Get(txn, path)
    case None => Lookup(txn, "undefined")
  }

  /** `data[i]`: undefined and null have no elements to read. */
  function Element(data: Js, i: nat): Result<Js> {
    match data
    case Undefined => Err(TypeError)
    case Null => Err(TypeError)
    case Arr(xs) => Ok(if i < |xs| then xs[i] else Undefined)
    case Str(s) => Ok(if i < |s| then Str([s[i]]) else Undefined)
    case _ => Ok(Undefined)
  }

  /** The array branch of `txComparator`, from position i on: null skips a position. */
  function CompareFrom(pattern: seq<Js>, data: Js, i: nat): Result<bool>
    requires i <= |pattern|
    decreases |pattern| - i
  {
    if i == |pattern| then Ok(true)
    else
      var valData :- Element(data, i);
      if pattern[i] == Null || StrictEq(pattern[i], valData) then CompareFrom(pattern, data, i + 1)
      else Ok(false)
  }

  function Compare(filter: Js, data: Js): Result<bool> {
    match filter
    case Arr(pattern) => CompareFrom(pattern, data, 0)
    case _ => Ok(StrictEq(filter, data))
  }

  method TxComparator(filter: Js, data: Js) returns (r: Result<bool>)
    ensures r == Compare(filter, data)
  {
    if filter.Arr? {
      for i := 0 to |filter.elems|
        invariant Compare(filter, data) == CompareFrom(filter.elems, data, i)
      {
        var valData :- Element(data, i);
        if filter.elems[i] == Null {
          continue;
        }
        if !StrictEq(filter.elems[i], valData) {
          return Ok(false);
        }
      }
      return Ok(true);
    }
    return Ok(StrictEq(filter, data));
  }

  /** One property of a filter: `txType` is handled apart, undefined asks for nothing. */
  function CheckField(txn: Js, f: Field): Result<bool> {
    if f.key == "txType" || !IsMapped(Lookup(txn, "txType")) || f.val == Undefined then Ok(true)
    else Compare(f.val, Project(txn, f.key))
  }

  function CheckFields(txn: Js, fs: seq<Field>): Result<bool> {
    if fs == [] then Ok(true)
    else
      var passed :- CheckField(txn, fs[0]);
      if passed then CheckFields(txn, fs[1..]) else Ok(false)
  }

  predicate TypePasses(txn: Js, filter: Filter) {
    var txType := Find(filter, "txType");
    Truthy(txType) ==> StrictEq(Lookup(txn, "txType"), txType)
  }

  /** What `filterTransaction` answers, in the order it asks. */
  function Accepts(txn: Js, filter: Option<Filter>): Result<bool> {
    match filter
    case None => Ok(true)
    case Some(fs) => if !TypePasses(txn, fs) then Ok(false) else CheckFields(txn, fs)
  }

  method FilterTransaction(txn: Js, filter: Option<Filter>) returns (r: Result<bool>)
    ensures r == Accepts(txn, filter)
  {
    if filter == None {
      return Ok(true);
    }
    var fs := filter.value;
    var txType := Find(fs, "txType");
    if Truthy(txType) && !StrictEq(Lookup(txn, "txType"), txType) {
      return Ok(false);
    }
    for i := 0 to |fs|
      invariant Accepts(txn, filter) == CheckFields(txn, fs[i..])
    {
      assert fs[i..][1..] == fs[i + 1..];
      if fs[i].key != "txType" && IsMapped(Lookup(txn, "txType")) && fs[i].val != Undefined {
        var same :- TxComparator(fs[i].val, Project(txn, fs[i].key));
        if !same {
          return Ok(false);
        }
      }
    }
    return Ok(true);
  }

  /** A filter accepts a transaction exactly when its type and each property on its own do. */
  lemma {:induction false} ChecksEveryField(txn: Js, fs: seq<Field>)
    ensures CheckFields(txn, fs) == Ok(true) <==> forall f :: f in fs ==> CheckField(txn, f) == Ok(true)
  {
    if fs != [] {
      ChecksEveryField(txn, fs[1..]);
      assert fs == [fs[0]] + fs[1..];
    }
  }

  /** The order of a filter's properties does not matter to what it accepts. */
  lemma AcceptanceIgnoresOrder(txn: Js, fs: Filter, gs: Filter)
    requires DistinctKeys(fs) && DistinctKeys(gs) && multiset(fs) == multiset(gs)
    ensures Accepts(txn, Some(fs)) == Ok(true) <==> Accepts(txn, Some(gs)) == Ok(true)
  {
    forall f ensures f in fs <==> f in gs {
      assert f in multiset(fs) <==> f in multiset(gs);
    }
    ChecksEveryField(txn, fs);
    ChecksEveryField(txn, gs);
    if HasKey(fs, "txType") {
      SameFind(fs, gs, "txType");
    }
    if HasKey(gs, "txType") {
      SameFind(gs, fs, "txType");
    }
  }

  lemma SameFind(fs: Filter, gs: Filter, key: string)
    requires DistinctKeys(gs) && HasKey(fs, key) && forall f :: f in fs ==> f in gs
    ensures HasKey(gs, key) && Find(gs, key) == Find(fs, key)
  {
    var f := Field(key, Find(fs, key));
    var i :| 0 <= i < |gs| && gs[i] == f;
    FindMember(gs, i);
  }

  /** A pattern fits data position by position: null fits anything, and data beyond it is ignored. */
  lemma {:induction false} ComparesPositions(pattern: seq<Js>, xs: seq<Js>, i: nat)
    requires i <= |pattern|
    ensures CompareFrom(pattern, Arr(xs), i) == Ok(true) <==>
      forall k :: i <= k < |pattern| ==>
        pattern[k] == Null || StrictEq(pattern[k], if k < |xs| then xs[k] else Undefined)
    decreases |pattern| - i
  {
    if i < |pattern| {
      ComparesPositions(pattern, xs, i + 1);
    }
  }

  /** A string is read character by character; other data that is there has no elements. */
  lemma {:induction false} ComparesOtherData(pattern: seq<Js>, data: Js, i: nat)
    requires i <= |pattern| && data != Undefined && data != Null && !data.Arr?
    ensures CompareFrom(pattern, data, i) == Ok(true) <==>
      forall k :: i <= k < |pattern| ==>
        pattern[k] == Null || StrictEq(pattern[k], if data.Str? && k < |data.s| then Str([data.s[k]]) else Undefined)
    decreases |pattern| - i
  {
    if i < |pattern| {
      ComparesOtherData(pattern, data, i + 1);
    }
  }

  /** Reading element by element throws only where there is nothing to read. */
  lemma {:induction false} CompareThrowsOnlyOnAbsentData(pattern: seq<Js>, data: Js, i: nat)
    requires i <= |pattern|
    ensures CompareFrom(pattern, data, i).Err? <==> i < |pattern| && (data == Undefined || data == Null)
    decreases |pattern| - i
  {
    if i < |pattern| && data != Undefined && data != Null {
      CompareThrowsOnlyOnAbsentData(pattern, data, i + 1);
    }
  }

  /** A list with something to compare, asked of data that is not there. */
  predicate CannotCompare(txn: Js, f: Field) {
    && f.key != "txType" && IsMapped(Lookup(txn, "txType"))
    && f.val.Arr? && f.val.elems != []
    && (Project(txn, f.key) == Undefined || Project(txn, f.key) == Null)
  }

  /** One such property is reached: every property before it passes. */
  ghost predicate MeetsAbsentData(txn: Js, fs: Filter) {
    exists i :: 0 <= i < |fs| && CannotCompare(txn, fs[i])
      && forall j :: 0 <= j < i ==> CheckField(txn, fs[j]) == Ok(true)
  }

  lemma CheckThrowsIff(txn: Js, f: Field)
    ensures CheckField(txn, f).Err? <==> CannotCompare(txn, f)
  {
    if f.val.Arr? {
      CompareThrowsOnlyOnAbsentData(f.val.elems, Project(txn, f.key), 0);
    }
  }

  lemma {:induction false} FieldsThrowIff(txn: Js, fs: Filter)
    ensures CheckFields(txn, fs).Err? <==> MeetsAbsentData(txn, fs)
  {
    if fs != [] {
      CheckThrowsIff(txn, fs[0]);
      FieldsThrowIff(txn, fs[1..]);
      if CheckField(txn, fs[0]) == Ok(true) && MeetsAbsentData(txn, fs[1..]) {
        var i :| 0 <= i < |fs[1..]| && CannotCompare(txn, fs[1..][i])
          && forall j :: 0 <= j < i ==> CheckField(txn, fs[1..][j]) == Ok(true);
        assert CannotCompare(txn, fs[i + 1]);
        forall j | 0 <= j < i + 1 ensures CheckField(txn, fs[j]) == Ok(true) {
          assert j > 0 ==> fs[j] == fs[1..][j - 1];
        }
      }
      if MeetsAbsentData(txn, fs) && !CannotCompare(txn, fs[0]) {
        var i :| 0 <= i < |fs| && CannotCompare(txn, fs[i])
          && forall j :: 0 <= j < i ==> CheckField(txn, fs[j]) == Ok(true);
        assert CannotCompare(txn, fs[1..][i - 1]);
        forall j | 0 <= j < i - 1 ensures CheckField(txn, fs[1..][j]) == Ok(true) {
          assert fs[1..][j] == fs[j + 1];
        }
      }
    }
  }

  ghost predicate FilterThrows(txn: Js, filter: Option<Filter>) {
    filter.Some? && TypePasses(txn, filter.value) && MeetsAbsentData(txn, filter.value)
  }

  /** A filter throws exactly when its type passes and a list in it is reached that finds no data. */
  lemma FilterThrowsIff(txn: Js, filter: Option<Filter>)
    ensures Accepts(txn, filter).Err? <==> FilterThrows(txn, filter)
  {
    if filter.Some? {
      FieldsThrowIff(txn, filter.value);
    }
  }

  /** Unlike acceptance, throwing depends on the order of the properties. */
  lemma ThrowingDependsOnOrder(txn: Js, args: Field, id: Field)
    requires txn == Obj([Field("txType", Str("pay"))])
    requires args == Field("applicationArgs", Arr([Str("x")])) && id == Field("applicationId", Num(1))
    ensures Accepts(txn, Some([args, id])) == Err(TypeError)
    ensures Accepts(txn, Some([id, args])) == Ok(false)
    ensures Accepts(txn, Some([Field("txType", Str("appl")), args])) == Ok(false)
  {
    var data := Project(txn, args.key);
    assert data == Undefined && Project(txn, id.key) == Undefined;
    assert CheckField(txn, args) == Err(TypeError);
    assert CheckField(txn, id) == Ok(false);
  }

  // ----- Blocks -----

  /** Does a block filter's timestamp schedule let a block through? The schedule itself is node-core's. */
  type Schedule = (BlockData, Filter) -> bool

  /** A modulus is a number or missing; zero counts as missing. JavaScript's remainder is zero for
      exactly the multiples, whatever the sign of the modulus. */
  predicate FilterBlockModulo(round: nat, filter: Filter) {
    match Find(filter, "modulo")
    case Num(m) => m == 0 || round % m == 0
    case _ => true
  }

  predicate FilterBlock(block: BlockData, filter: Option<Filter>, schedule: Schedule) {
    match filter
    case None => true
    case Some(fs) => FilterBlockModulo(block.round, fs) && schedule(block, fs)
  }

  predicate Times(q: int, m: int, round: int) {
    round == q * m
  }

  lemma MultipleIff(round: nat, m: int)
    requires m != 0
    ensures round % m == 0 <==> exists q :: Times(q, m, round)
  {
    if round % m == 0 {
      assert Times(round / m, m, round);
    }
    if q :| Times(q, m, round) {
      MultipleHasNoRemainder(q, m);
    }
  }

  lemma MultipleHasNoRemainder(q: int, m: int)
    requires m != 0
    ensures q * m % m == 0
  {
    var rest := q * m % m;
    var diff := q - q * m / m;
    assert rest == diff * m;
    assert 0 <= rest < if m < 0 then -m else m;
    if diff != 0 {
      assert diff >= 1 || diff <= -1;
    }
  }

  /** A block is accepted exactly when it is a multiple of the modulo, if there is one, and on schedule. */
  lemma BlockAcceptedIff(block: BlockData, f: Filter, schedule: Schedule)
    requires Find(f, "modulo").Num? || Find(f, "modulo") == Undefined
    ensures FilterBlock(block, None, schedule)
    ensures Find(f, "modulo").Num? && Find(f, "modulo").n != 0 ==>
      (FilterBlock(block, Some(f), schedule) <==>
        (exists q :: Times(q, Find(f, "modulo").n, block.round)) && schedule(block, f))
    ensures Find(f, "modulo") == Undefined || Find(f, "modulo") == Num(0) ==>
      (FilterBlock(block, Some(f), schedule) <==> schedule(block, f))
  {
    if Find(f, "modulo").Num? && Find(f, "modulo").n != 0 {
      MultipleIff(block.round, Find(f, "modulo").n);
    }
  }
}
