/** What each row of the mapping table means, in terms of a transaction's own properties. */
module FilterTable {
  import opened Values
  import opened Filters

  /** A filter for a type and one other property. */
  function Asking(txType: string, key: string, val: Js): Filter {
    [Field("txType", Str(txType)), Field(key, val)]
  }

  predicate Admits(txn: Js, txType: string, key: string, val: Js) {
    Accepts(txn, Some(Asking(txType, key, val))) == Ok(true)
  }

  /** A string, a number or a truth value. */
  predicate Scalar(val: Js) {
    val.Str? || val.Num? || val.Bool?
  }

  predicate HasType(txn: Js, txType: string) {
    Lookup(txn, "txType") == Str(txType)
  }

  /** A property of the part of a transaction that goes with its type. */
  function Detail(txn: Js, part: string, key: string): Js {
    Lookup(Lookup(txn, part), key)
  }

  /** Such a filter asks for the type, and then for its other property. */
  lemma AdmitsTwo(txn: Js, f: Filter)
    requires |f| == 2 && f[0].key == "txType" && f[0].val.Str? && IsMapped(f[0].val) && f[1].key != "txType"
    ensures Accepts(txn, Some(f)) == Ok(true) <==>
      Lookup(txn, "txType") == f[0].val && CheckField(txn, f[1]) == Ok(true)
  {
    assert Find(f, "txType") == f[0].val && f[0].val != Str("");
    ChecksEveryField(txn, f);
    assert f[0] in f && f[1] in f && forall p :: p in f ==> p == f[0] || p == f[1];
    assert CheckField(txn, f[0]) == Ok(true);
  }

  /** Such a filter passes when the type is right and the property that is read has the value. */
  lemma AdmitsIff(txn: Js, txType: string, key: string, val: Js)
    requires IsMapped(Str(txType)) && key != "txType" && Scalar(val)
    ensures Admits(txn, txType, key, val) <==> HasType(txn, txType) && Project(txn, key) == val
  {
    var f := Asking(txType, key, val);
    AdmitsTwo(txn, f);
    if HasType(txn, txType) {
      assert CheckField(txn, f[1]) == Ok(StrictEq(val, Project(txn, key)));
    }
  }

  lemma PathOfOne(txn: Js, key: string)
    ensures Get(txn, [key]) == Lookup(txn, key)
  {
    assert [key][1..] == [];
  }

  lemma PathOfTwo(txn: Js, part: string, key: string)
    ensures Get(txn, [part, key]) == Detail(txn, part, key)
  {
    PathOfOne(Lookup(txn, part), key);
    assert [part, key][1..] == [key];
  }

  lemma Payments(txn: Js, val: Js)
    requires Scalar(val)
    ensures Admits(txn, "pay", "sender", val) <==> HasType(txn, "pay") && Lookup(txn, "sender") == val
    ensures Admits(txn, "pay", "receiver", val) <==>
      HasType(txn, "pay") && Detail(txn, "paymentTransaction", "receiver") == val
  {
    AdmitsIff(txn, "pay", "sender", val);
    AdmitsIff(txn, "pay", "receiver", val);
    PathOfOne(txn, "sender");
    PathOfTwo(txn, "paymentTransaction", "receiver");
  }

  lemma KeyRegistrations(txn: Js, val: Js)
    requires Scalar(val)
    ensures Admits(txn, "keyreg", "nonParticipant", val) <==>
      HasType(txn, "keyreg") && Detail(txn, "keyregTransaction", "nonParticipation") == val
    ensures Admits(txn, "keyreg", "sender", val) <==> HasType(txn, "keyreg") && Lookup(txn, "sender") == val
  {
    AdmitsIff(txn, "keyreg", "nonParticipant", val);
    AdmitsIff(txn, "keyreg", "sender", val);
    PathOfTwo(txn, "keyregTransaction", "nonParticipation");
    PathOfOne(txn, "sender");
  }

  lemma AssetConfigurations(txn: Js, val: Js)
    requires Scalar(val)
    ensures Admits(txn, "acfg", "assetId", val) <==>
      HasType(txn, "acfg") && Detail(txn, "assetConfigTransaction", "assetId") == val
    ensures Admits(txn, "acfg", "sender", val) <==> HasType(txn, "acfg") && Lookup(txn, "sender") == val
  {
    AdmitsIff(txn, "acfg", "assetId", val);
    AdmitsIff(txn, "acfg", "sender", val);
    PathOfTwo(txn, "assetConfigTransaction", "assetId");
    PathOfOne(txn, "sender");
  }

  lemma AssetTransfers(txn: Js, val: Js)
    requires Scalar(val)
    ensures Admits(txn, "axfer", "assetId", val) <==>
      HasType(txn, "axfer") && Detail(txn, "assetTransferTransaction", "assetId") == val
    ensures Admits(txn, "axfer", "sender", val) <==> HasType(txn, "axfer") && Lookup(txn, "sender") == val
    ensures Admits(txn, "axfer", "receiver", val) <==>
      HasType(txn, "axfer") && Detail(txn, "assetTransferTransaction", "receiver") == val
  {
    AdmitsIff(txn, "axfer", "assetId", val);
    AdmitsIff(txn, "axfer", "sender", val);
    AdmitsIff(txn, "axfer", "receiver", val);
    PathOfTwo(txn, "assetTransferTransaction", "assetId");
    PathOfOne(txn, "sender");
    PathOfTwo(txn, "assetTransferTransaction", "receiver");
  }

  lemma AssetFreezes(txn: Js, val: Js)
    requires Scalar(val)
    ensures Admits(txn, "afrz", "assetId", val) <==>
      HasType(txn, "afrz") && Detail(txn, "assetFreezeTransaction", "assetId") == val
    ensures Admits(txn, "afrz", "newFreezeStatus", val) <==>
      HasType(txn, "afrz") && Detail(txn, "assetFreezeTransaction", "newFreezeStatus") == val
    ensures Admits(txn, "afrz", "address", val) <==> HasType(txn, "afrz") && Lookup(txn, "sender") == val
  {
    AdmitsIff(txn, "afrz", "assetId", val);
    AdmitsIff(txn, "afrz", "newFreezeStatus", val);
    AdmitsIff(txn, "afrz", "address", val);
    PathOfTwo(txn, "assetFreezeTransaction", "assetId");
    PathOfTwo(txn, "assetFreezeTransaction", "newFreezeStatus");
    PathOfOne(txn, "sender");
  }

  lemma ApplicationCalls(txn: Js, val: Js)
    requires Scalar(val)
    ensures Admits(txn, "appl", "applicationId", val) <==>
      HasType(txn, "appl") && Detail(txn, "applicationTransaction", "applicationId") == val
    ensures Admits(txn, "appl", "sender", val) <==> HasType(txn, "appl") && Lookup(txn, "sender") == val
  {
    AdmitsIff(txn, "appl", "applicationId", val);
    AdmitsIff(txn, "appl", "sender", val);
    PathOfTwo(txn, "applicationTransaction", "applicationId");
    PathOfOne(txn, "sender");
  }

  /** Application arguments are compared position by position, null with anything. */
  lemma ApplicationArguments(txn: Js, pattern: seq<Js>, args: seq<Js>)
    requires Detail(txn, "applicationTransaction", "applicationArgs") == Arr(args)
    requires forall p :: p in pattern ==> p == Null || Scalar(p)
    ensures Admits(txn, "appl", "applicationArgs", Arr(pattern)) <==>
      HasType(txn, "appl") && forall k :: 0 <= k < |pattern| && pattern[k] != Null ==>
        k < |args| && args[k] == pattern[k]
  {
    var f := Asking("appl", "applicationArgs", Arr(pattern));
    PathOfTwo(txn, "applicationTransaction", "applicationArgs");
    AdmitsTwo(txn, f);
    ComparesPositions(pattern, args, 0);
    forall k | 0 <= k < |pattern| ensures pattern[k] == Null || Scalar(pattern[k]) {
      assert pattern[k] in pattern;
    }
  }

  /** A transaction of a type outside the table passes whatever else a filter asks for. */
  lemma OtherTypes(txn: Js, key: string, val: Js)
    requires forall t :: t in {"pay", "keyreg", "acfg", "axfer", "afrz", "appl"} ==> !HasType(txn, t)
    requires key != "txType"
    ensures Accepts(txn, Some([Field(key, val)])) == Ok(true)
  {
    var f := [Field(key, val)];
    ChecksEveryField(txn, f);
    OneProperty(f[0], "txType");
    assert HasType(txn, "pay") || HasType(txn, "keyreg") || HasType(txn, "acfg") || HasType(txn, "axfer")
      || HasType(txn, "afrz") || HasType(txn, "appl") || !IsMapped(Lookup(txn, "txType"));
  }

  /** The keys a type has a row for. */
  function KeysOf(txType: string): set<string> {
    if txType == "pay" then {"sender", "receiver"}
    else if txType == "keyreg" then {"nonParticipant", "sender"}
    else if txType == "acfg" then {"assetId", "sender"}
    else if txType == "axfer" then {"assetId", "sender", "receiver"}
    else if txType == "afrz" then {"assetId", "newFreezeStatus", "address"}
    else if txType == "appl" then {"applicationId", "applicationArgs", "sender"}
    else {}
  }

  /** A key without a row is read off a property called "undefined". */
  lemma OtherKeys(txn: Js, txType: string, key: string, val: Js)
    requires IsMapped(Str(txType)) && key !in KeysOf(txType) && key != "txType" && Scalar(val)
    ensures Admits(txn, txType, key, val) <==> HasType(txn, txType) && Lookup(txn, "undefined") == val
  {
    AdmitsIff(txn, txType, key, val);
  }
}
