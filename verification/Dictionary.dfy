/** Compiling handler filters into a dictionary query: a list of entries, each a list of conditions. */
module Dictionary {
  import opened Values
  import opened Filters
  import opened DataSources

  /** A condition asks for equality; an entry asks for all of its conditions. */
  datatype Condition = Condition(field: string, value: Js)

  datatype Entry = Entry(entity: string, conditions: seq<Condition>)

  // ----- One filter -----

  /** Properties become conditions, except `applicationArgs` and undefined ones. */
  function Conditions(fs: Filter): (cs: seq<Condition>)
    ensures forall c :: c in cs <==>
      Field(c.field, c.value) in fs && c.field != "applicationArgs" && c.value != Undefined
  {
    if fs == [] then []
    else
      assert fs == [fs[0]] + fs[1..];
      var rest := Conditions(fs[1..]);
      if fs[0].key != "applicationArgs" && fs[0].val != Undefined then
        [Condition(fs[0].key, fs[0].val)] + rest
      else rest
  }

  function EntryOf(f: Filter): Entry {
    Entry("transactions", Conditions(f))
  }

  /** The dictionary's view of a transaction. */
  function FieldOf(txn: Js, field: string): Js {
    if field == "txType" then Lookup(txn, "txType") else Project(txn, field)
  }

  predicate EntryMatches(txn: Js, e: Entry) {
    forall c :: c in e.conditions ==> StrictEq(c.value, FieldOf(txn, c.field))
  }

  predicate AnyMatches(txn: Js, es: seq<Entry>) {
    exists e :: e in es && EntryMatches(txn, e)
  }

  /** Filters as their type allows them: only `applicationArgs` is a list. */
  predicate Typed(f: Filter) {
    DistinctKeys(f) && forall p :: p in f && p.key != "applicationArgs" ==> !p.val.Arr?
  }

  /** `txType` is left out or names a type. */
  predicate TypeFits(f: Filter) {
    Find(f, "txType") == Undefined || Truthy(Find(f, "txType"))
  }

  /** The part of a filter the dictionary does not see. */
  predicate ArgsPass(txn: Js, f: Filter) {
    forall p :: p in f && p.key == "applicationArgs" ==> CheckField(txn, p) == Ok(true)
  }

  lemma ConditionAgreesWithCheck(txn: Js, f: Filter, p: Field)
    requires Typed(f) && IsMapped(Lookup(txn, "txType")) && p in f
    requires p.key != "applicationArgs" && p.key != "txType" && p.val != Undefined
    ensures CheckField(txn, p) == Ok(true) <==> StrictEq(p.val, FieldOf(txn, p.key))
  {
  }

  /** Compilation is exact: a filter accepts what its entry matches, up to the argument patterns. */
  lemma CompileIsExact(txn: Js, f: Filter)
    requires Typed(f) && TypeFits(f) && IsMapped(Lookup(txn, "txType"))
    ensures Accepts(txn, Some(f)) == Ok(true) <==> EntryMatches(txn, EntryOf(f)) && ArgsPass(txn, f)
  {
    var txType := Find(f, "txType");
    ChecksEveryField(txn, f);
    if EntryMatches(txn, EntryOf(f)) && ArgsPass(txn, f) {
      if Truthy(txType) {
        assert Condition("txType", txType) in Conditions(f);
      }
      forall p | p in f ensures CheckField(txn, p) == Ok(true) {
        if p.key != "txType" && p.key != "applicationArgs" && p.val != Undefined {
          assert Condition(p.key, p.val) in Conditions(f);
          ConditionAgreesWithCheck(txn, f, p);
        }
      }
    }
    if Accepts(txn, Some(f)) == Ok(true) {
      forall c | c in Conditions(f) ensures StrictEq(c.value, FieldOf(txn, c.field)) {
        var p := Field(c.field, c.value);
        if c.field == "txType" {
          PropertyIsFound(f, p);
        } else {
          ConditionAgreesWithCheck(txn, f, p);
        }
      }
    }
  }

  lemma PropertyIsFound(f: Filter, p: Field)
    requires DistinctKeys(f) && p in f
    ensures Find(f, p.key) == p.val
  {
    var i :| 0 <= i < |f| && f[i] == p;
    FindMember(f, i);
  }

  /** A filter that asks for nothing but a type and arguments. */
  predicate AsksOnlyType(f: Filter) {
    forall c :: c in Conditions(f) ==> c.field == "txType"
  }

  /** The filter's `txType` is not an empty value, and the transaction's is mapped or all that is asked for. */
  predicate EntryReaches(txn: Js, f: Filter) {
    TypeFits(f) && (IsMapped(Lookup(txn, "txType")) || AsksOnlyType(f))
  }

  /** A transaction as the indexer gives them: it has a type, and no property of the name "undefined". */
  predicate Plain(txn: Js) {
    Truthy(Lookup(txn, "txType")) && Lookup(txn, "undefined") == Undefined
  }

  /** Exactly when the dictionary finds an accepted transaction. */
  lemma AcceptedIsFoundIff(txn: Js, f: Filter)
    requires Typed(f) && Plain(txn) && Accepts(txn, Some(f)) == Ok(true)
    ensures EntryMatches(txn, EntryOf(f)) <==> EntryReaches(txn, f)
  {
    var txType := Find(f, "txType");
    if !TypeFits(f) {
      assert Condition("txType", txType) in Conditions(f);
    } else if IsMapped(Lookup(txn, "txType")) {
      CompileIsExact(txn, f);
    } else {
      forall c | c in Conditions(f)
        ensures c.field == "txType" <==> StrictEq(c.value, FieldOf(txn, c.field))
      {
        if c.field == "txType" {
          PropertyIsFound(f, Field(c.field, c.value));
        } else {
          UnmappedProjectsNothing(txn, c.field);
        }
      }
    }
  }

  lemma UnmappedProjectsNothing(txn: Js, key: string)
    requires !IsMapped(Lookup(txn, "txType"))
    ensures Project(txn, key) == Lookup(txn, "undefined")
  {
  }

  /** Accepted and not found: a state proof, whose type is not mapped, by a filter for its sender. */
  lemma UnmappedIsMissed(proposal: Js, bySender: Filter)
    requires proposal == BareTransaction("stpf") && bySender == [Field("sender", Str("A"))]
    ensures Typed(bySender) && TypeFits(bySender) && Plain(proposal)
    ensures Accepts(proposal, Some(bySender)) == Ok(true) && !EntryMatches(proposal, EntryOf(bySender))
  {
    ChecksEveryField(proposal, bySender);
    OneProperty(bySender[0], "txType");
    OneProperty(proposal.fields[0], "undefined");
    assert !IsMapped(Lookup(proposal, "txType")) && Lookup(proposal, "undefined") == Undefined;
    UnmappedProjectsNothing(proposal, "sender");
    assert bySender[0] in bySender && Condition("sender", Str("A")) in Conditions(bySender);
  }

  /** Accepted and not found: a payment, by a filter with an empty type. */
  lemma EmptyTypeIsMissed(payment: Js, emptyType: Filter)
    requires payment == BareTransaction("pay") && emptyType == [Field("txType", Str(""))]
    ensures Typed(emptyType)
    ensures Accepts(payment, Some(emptyType)) == Ok(true) && !EntryMatches(payment, EntryOf(emptyType))
  {
    ChecksEveryField(payment, emptyType);
    assert emptyType[0] in emptyType && Condition("txType", Str("")) in Conditions(emptyType);
    assert Lookup(payment, "txType") == Str("pay") != Str("");
  }

  // ----- A list of filters -----

  /** A transaction with nothing in it but its type. */
  function BareTransaction(txType: string): Js {
    Obj([Field("txType", Str(txType))])
  }

  lemma BareProjectsNothing(txType: string, key: string)
    ensures Project(BareTransaction(txType), key) == Undefined
  {
    var txn := BareTransaction(txType);
    assert Lookup(txn, "sender") == Undefined && Lookup(txn, "undefined") == Undefined;
  }

  /** The filter asks for nothing but this type. */
  predicate AsksOnlyFor(f: Filter, txType: string) {
    forall c :: c in Conditions(f) ==> c == Condition("txType", Str(txType))
  }

  predicate FoundByOne(txn: Js, fs: seq<Filter>) {
    exists f :: f in fs && EntryMatches(txn, EntryOf(f))
  }

  /**
   * An undefined filter accepts every transaction, but is dropped from its list. The entries of the
   * others find every transaction of a type exactly when one of them asks for nothing but that type.
   */
  lemma DroppedFilterIsCoveredIff(list: seq<Option<Filter>>, txType: string)
    ensures forall txn :: Accepts(txn, None) == Ok(true)
    ensures (forall txn :: Lookup(txn, "txType") == Str(txType) ==> FoundByOne(txn, Defined(list)))
      <==> exists f :: Some(f) in list && AsksOnlyFor(f, txType)
  {
    var bare := BareTransaction(txType);
    assert Lookup(bare, "txType") == Str(txType);
    if FoundByOne(bare, Defined(list)) {
      var f :| f in Defined(list) && EntryMatches(bare, EntryOf(f));
      forall c | c in Conditions(f) ensures c == Condition("txType", Str(txType)) {
        BareProjectsNothing(txType, c.field);
      }
      assert AsksOnlyFor(f, txType);
    }
    if f :| Some(f) in list && AsksOnlyFor(f, txType) {
      forall txn | Lookup(txn, "txType") == Str(txType) ensures FoundByOne(txn, Defined(list)) {
        assert f in Defined(list) && EntryMatches(txn, EntryOf(f));
      }
    }
  }
}
