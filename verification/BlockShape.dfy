/** `constructBlock` and the two ways to a full block: one lookup, or a header and its pages. */
module BlockShape {
  import opened Values
  import opened CamelCase
  import opened Normalise

  /**
   * The property names a block is built with. What follows holds for any names that fit;
   * `ActualNamesFit` shows that the real ones do.
   */
  datatype Names = Names(byGroup: string, toJson: string, transactions: string, block: string)

  /** The added names are no raw keys; of the three, only `toJson` changes when camel-cased. */
  predicate Fit(n: Names) {
    && !Kebab(n.byGroup) && Camel(n.byGroup) == n.byGroup
    && !Kebab(n.toJson) && Camel(n.toJson) != n.toJson
    && Kebab(n.transactions) && Camel(n.transactions) == n.transactions
    && n.byGroup != n.toJson && n.block != n.toJson
    && Camel(n.toJson) != n.byGroup && Camel(n.toJson) != n.transactions
  }

  lemma ByGroupFits(name: string)
    requires name == "getTransactionsByGroup"
    ensures !Kebab(name) && Camel(name) == name
  {
    NoCapitals(name, 3);
    CamelOfByGroup(name);
  }

  lemma ToJsonFits(name: string)
    requires name == "toJSON"
    ensures !Kebab(name) && Camel(name) == "toJson"
  {
    NoCapitals(name, 2);
    CamelOfToJson(name);
  }

  lemma ActualNamesFit(n: Names)
    requires n.byGroup == "getTransactionsByGroup" && n.toJson == "toJSON"
    requires n.transactions == "transactions" && n.block == "block"
    ensures Fit(n) && Camel(n.toJson) == "toJson"
  {
    ByGroupFits(n.byGroup);
    ToJsonFits(n.toJson);
    CamelOfSmallLetters(n.transactions);
    assert n.toJson[2] == 'J' && "toJson"[2] == 'J' && n.byGroup[2] == 't' && n.transactions[2] == 'a';
    assert "toJson"[3] != n.toJson[3] && n.block[0] != n.toJson[0];
  }

  /** The own properties a spread copies. */
  function Spread(v: Js): seq<Field> {
    match v
    case Obj(fs) => fs
    case _ => []
  }

  /** A transaction gains a reference to its block. */
  function WithBlock(n: Names, tx: Js): Js {
    Obj(Put(Put(Spread(tx), n.block, Enclosing), n.toJson, JsonFn([n.block, n.toJson])))
  }

  function WithBlocks(n: Names, txs: seq<Js>): seq<Js> {
    seq(|txs|, i requires 0 <= i < |txs| => WithBlock(n, txs[i]))
  }

  /** `newBlock.transactions?.map(...)`. */
  function MappedTransactions(n: Names, transactions: Js): Result<Js> {
    match transactions
    case Undefined => Ok(Undefined)
    case Null => Ok(Undefined)
    case Arr(txs) => Ok(Arr(WithBlocks(n, txs)))
    case _ => Err(TypeError)
  }

  /** The transactions a block's group lookup captures. */
  function Captured(mapped: Js): seq<Js> {
    match mapped
    case Arr(txs) => txs
    case _ => []
  }

  /** The properties of a constructed block: the given ones, two functions, and the mapped transactions. */
  function BlockFields(n: Names, fs: seq<Field>, mapped: Js): seq<Field> {
    Put(Put(Put(fs, n.byGroup, GroupFn(Captured(mapped))), n.toJson, JsonFn([n.byGroup, n.toJson])),
        n.transactions, mapped)
  }

  /** `constructBlock`. */
  function ConstructBlock(n: Names, block: Js): Result<Js> {
    var mapped :- MappedTransactions(n, Find(Spread(block), n.transactions));
    Ok(Obj(BlockFields(n, Spread(block), mapped)))
  }

  /** `block.getTransactionsByGroup(groupId)`. */
  function TransactionsByGroup(n: Names, block: Js, groupId: string): seq<Js> {
    match Lookup(block, n.byGroup)
    case GroupFn(captured) => InGroup(captured, groupId)
    case _ => []
  }

  function InGroup(txs: seq<Js>, groupId: string): seq<Js> {
    if txs == [] then []
    else if StrictEq(Lookup(txs[0], "group"), Str(groupId)) then [txs[0]] + InGroup(txs[1..], groupId)
    else InGroup(txs[1..], groupId)
  }

  /** `getBlockByHeight` when the indexer serves the whole block. */
  function DirectBlock(n: Names, raw: Js): Result<Js> {
    var block :- CamelCaseObjectKey(raw);
    ConstructBlock(n, block)
  }

  /** `getHeaderOnly`: the header is not normalised. */
  function HeaderOnly(n: Names, header: Js): Result<Js> {
    ConstructBlock(n, header)
  }

  /** `combinePaginateBlock`: the header is constructed, normalised, and constructed again. */
  function CombinePaginateBlock(n: Names, header: Js, txs: seq<Js>): Result<Js> {
    var block :- HeaderOnly(n, header);
    var fields :- CamelCaseObjectKey(block);
    var transactions :- CamelCaseObjectKey(Arr(txs));
    ConstructBlock(n, Obj(Put(Spread(fields), n.transactions, transactions)))
  }

  // ----- What the rewrite makes of fields in general -----

  /** At most one key is renamed to `name`. */
  predicate SoleSource(fs: seq<Field>, name: string, key: string) {
    forall f :: f in fs && Camel(f.key) == name ==> f.key == key
  }

  /** A rewritten property comes from the one key that is renamed to it, if any. */
  lemma {:induction false} FindRewritten(fs: seq<Field>, acc: seq<Field>, name: string, key: string)
    requires NormaliseFields(fs, acc).Ok? && DistinctKeys(fs)
    requires Camel(key) == name && SoleSource(fs, name, key)
    ensures var r := NormaliseFields(fs, acc).value;
      if HasKey(fs, key) then CamelCaseObjectKey(Find(fs, key)) == Ok(Find(r, name))
      else Find(r, name) == Find(acc, name)
    decreases fs
  {
    if fs != [] {
      var val := CamelCaseObjectKey(fs[0].val).value;
      var acc' := Put(acc, Camel(fs[0].key), val);
      assert fs[0] in fs && SoleSource(fs[1..], name, key);
      FindRewritten(fs[1..], acc', name, key);
    }
  }

  /** No key is renamed to `name`. */
  lemma {:induction false} FindNotRewritten(fs: seq<Field>, acc: seq<Field>, name: string)
    requires NormaliseFields(fs, acc).Ok?
    requires forall f :: f in fs ==> Camel(f.key) != name
    ensures Find(NormaliseFields(fs, acc).value, name) == Find(acc, name)
    decreases fs
  {
    if fs != [] {
      var val := CamelCaseObjectKey(fs[0].val).value;
      assert fs[0] in fs;
      FindNotRewritten(fs[1..], Put(acc, Camel(fs[0].key), val), name);
    }
  }

  /** The rewrite succeeds exactly when every value can be rewritten. */
  lemma {:induction false} FieldsRewrite(fs: seq<Field>, acc: seq<Field>)
    ensures NormaliseFields(fs, acc).Ok? <==> forall f :: f in fs ==> CamelCaseObjectKey(f.val).Ok?
    decreases fs
  {
    if fs != [] {
      if CamelCaseObjectKey(fs[0].val).Ok? {
        FieldsRewrite(fs[1..], Put(acc, Camel(fs[0].key), CamelCaseObjectKey(fs[0].val).value));
      }
      assert fs == [fs[0]] + fs[1..];
    }
  }

  lemma {:induction false} PutMembers(fs: seq<Field>, key: string, val: Js)
    requires DistinctKeys(fs)
    ensures forall f :: f in Put(fs, key, val) <==> f == Field(key, val) || (f in fs && f.key != key)
  {
    if fs == [] {
    } else if fs[0].key == key {
      forall f | f in fs[1..] ensures f.key != key {
        MemberHasKey(fs[1..], f);
      }
      assert fs == [fs[0]] + fs[1..];
    } else {
      PutMembers(fs[1..], key, val);
      assert fs == [fs[0]] + fs[1..];
    }
  }

  // ----- When the paginated path works -----

  lemma HeaderMembers(n: Names, hs: seq<Field>, mapped: Js)
    requires Fit(n) && DistinctKeys(hs)
    ensures DistinctKeys(BlockFields(n, hs, mapped))
    ensures forall f :: f in BlockFields(n, hs, mapped) <==>
      || f == Field(n.transactions, mapped)
      || f == Field(n.toJson, JsonFn([n.byGroup, n.toJson]))
      || f == Field(n.byGroup, GroupFn(Captured(mapped)))
      || (f in hs && f.key != n.transactions && f.key != n.toJson && f.key != n.byGroup)
  {
    var one := Put(hs, n.byGroup, GroupFn(Captured(mapped)));
    PutMembers(hs, n.byGroup, GroupFn(Captured(mapped)));
    PutMembers(one, n.toJson, JsonFn([n.byGroup, n.toJson]));
    PutMembers(Put(one, n.toJson, JsonFn([n.byGroup, n.toJson])), n.transactions, mapped);
  }

  /** A transaction that refers to its block cannot be rewritten. */
  lemma MappedCannotBeRewritten(n: Names, tx: Js)
    requires Fit(n) && KebabTree(tx)
    ensures CamelCaseObjectKey(WithBlock(n, tx)).Err?
  {
    var fs := Put(Put(Spread(tx), n.block, Enclosing), n.toJson, JsonFn([n.block, n.toJson]));
    assert HasKey(fs, n.block) && Find(fs, n.block) == Enclosing;
    assert Field(n.block, Enclosing) in fs;
    FieldsRewrite(fs, []);
  }

  lemma MappedRewrites(n: Names, mapped: Js, txs: Js)
    requires Fit(n) && (KebabTree(txs) || txs == Undefined)
    requires MappedTransactions(n, txs) == Ok(mapped)
    ensures CamelCaseObjectKey(mapped).Ok? <==> txs == Arr([])
  {
    if txs.Arr? && txs.elems != [] {
      MappedCannotBeRewritten(n, txs.elems[0]);
      assert mapped.elems[0] == WithBlock(n, txs.elems[0]);
    }
  }

  lemma HeaderFieldsRewrite(n: Names, hs: seq<Field>, mapped: Js)
    requires Fit(n) && KebabFields(hs)
    ensures NormaliseFields(BlockFields(n, hs, mapped), []).Ok? <==> CamelCaseObjectKey(mapped).Ok?
  {
    var fs := BlockFields(n, hs, mapped);
    HeaderMembers(n, hs, mapped);
    FieldsRewrite(fs, []);
    assert Field(n.transactions, mapped) in fs;
    forall f | f in hs ensures CamelCaseObjectKey(f.val).Ok? {
      RewriteRenames(f.val);
    }
  }

  /**
   * `combinePaginateBlock` succeeds exactly when the header carries an empty `transactions` array.
   * Without one, or with null, the second normalisation reads a property off undefined; with
   * transactions in it, it follows their references to the block round and round.
   */
  lemma PaginatedPathWorksIff(n: Names, hs: seq<Field>, txs: seq<Js>)
    requires Fit(n) && KebabFields(hs) && forall tx :: tx in txs ==> KebabTree(tx)
    ensures CombinePaginateBlock(n, Obj(hs), txs).Ok? <==> Find(hs, n.transactions) == Arr([])
  {
    var given := Find(hs, n.transactions);
    if MappedTransactions(n, given).Ok? {
      var mapped := MappedTransactions(n, given).value;
      MappedRewrites(n, mapped, given);
      HeaderFieldsRewrite(n, hs, mapped);
      if CamelCaseObjectKey(mapped).Ok? {
        PaginatedIs(n, hs, txs);
      }
    }
  }

  /** What the two paths compute when they work. */
  lemma PaginatedIs(n: Names, hs: seq<Field>, txs: seq<Js>)
    requires Fit(n) && KebabFields(hs) && Find(hs, n.transactions) == Arr([])
    requires forall tx :: tx in txs ==> KebabTree(tx)
    ensures NormaliseFields(BlockFields(n, hs, Arr([])), []).Ok?
    ensures var fields := NormaliseFields(BlockFields(n, hs, Arr([])), []).value;
      CombinePaginateBlock(n, Obj(hs), txs)
      == Ok(Obj(Completed(n, Put(fields, n.transactions, Arr(RenamedAll(txs))), txs)))
  {
    HeaderFieldsRewrite(n, hs, Arr([]));
    var fields := NormaliseFields(BlockFields(n, hs, Arr([])), []).value;
    assert CamelCaseObjectKey(Obj(BlockFields(n, hs, Arr([])))) == Ok(Obj(fields));
    assert HeaderOnly(n, Obj(hs)) == Ok(Obj(BlockFields(n, hs, Arr([])))) by {
      assert WithBlocks(n, []) == [];
    }
    assert CamelCaseObjectKey(Arr(txs)) == Ok(Arr(RenamedAll(txs))) by {
      RewriteRenamesAll(txs);
    }
    Constructed(n, Put(fields, n.transactions, Arr(RenamedAll(txs))), txs);
  }

  lemma DirectIs(n: Names, raw: seq<Field>, txs: seq<Js>)
    requires Fit(n) && KebabFields(raw) && Find(raw, n.transactions) == Arr(txs)
    ensures forall tx :: tx in txs ==> KebabTree(tx)
    ensures DirectBlock(n, Obj(raw)) == Ok(Obj(Completed(n, RenamedFields(raw), txs)))
  {
    assert Field(n.transactions, Arr(txs)) in raw;
    RewriteRenames(Obj(raw));
    FindRenamed(raw, n.transactions);
    Constructed(n, RenamedFields(raw), txs);
  }

  /** The properties of a block constructed with the renamed transactions `txs`. */
  function Completed(n: Names, fs: seq<Field>, txs: seq<Js>): seq<Field> {
    BlockFields(n, fs, Arr(WithBlocks(n, RenamedAll(txs))))
  }

  lemma Constructed(n: Names, fs: seq<Field>, txs: seq<Js>)
    requires Find(fs, n.transactions) == Arr(RenamedAll(txs))
    ensures ConstructBlock(n, Obj(fs)) == Ok(Obj(Completed(n, fs, txs)))
  {
  }

  /** Off the three names it sets, construction leaves properties alone; on them, it ignores what was there. */
  lemma CompletedProperty(n: Names, fs: seq<Field>, gs: seq<Field>, txs: seq<Js>, name: string)
    requires name != n.byGroup && name != n.toJson && name != n.transactions ==> Find(fs, name) == Find(gs, name)
    ensures Find(Completed(n, fs, txs), name) == Find(Completed(n, gs, txs), name)
  {
  }

  // ----- The two paths agree -----

  /** Apart from the added names, no key of a constructed header but a raw one is renamed to `name`. */
  lemma HeaderSources(n: Names, hs: seq<Field>, name: string, f: Field)
    requires Fit(n) && KebabFields(hs) && f in BlockFields(n, hs, Arr([])) && Camel(f.key) == name
    requires name != n.byGroup && name != Camel(n.toJson) && name != n.transactions
    ensures f in hs && f.key == Uncamel(name) && HasKey(hs, f.key)
  {
    HeaderMembers(n, hs, Arr([]));
    MemberHasKey(hs, f);
    CamelHasInverse(f.key);
  }

  /** The rewritten header has the raw properties, renamed. */
  lemma HeaderRewritten(n: Names, hs: seq<Field>, name: string)
    requires Fit(n) && KebabFields(hs) && NormaliseFields(BlockFields(n, hs, Arr([])), []).Ok?
    requires name != n.byGroup && name != Camel(n.toJson) && name != n.transactions
    ensures Find(NormaliseFields(BlockFields(n, hs, Arr([])), []).value, name)
         == Find(RenamedFields(hs), name)
  {
    var fs := BlockFields(n, hs, Arr([]));
    var key := Uncamel(name);
    HeaderMembers(n, hs, Arr([]));
    if Camel(key) == name && HasKey(hs, key) {
      forall f | f in fs && Camel(f.key) == name ensures f.key == key {
        HeaderSources(n, hs, name, f);
      }
      assert Field(key, Find(hs, key)) in hs;
      RewriteRenames(Find(hs, key));
      FindRewritten(fs, [], name, key);
      FindRenamed(hs, key);
    } else {
      forall f | f in fs ensures Camel(f.key) != name {
        if Camel(f.key) == name {
          HeaderSources(n, hs, name, f);
        }
      }
      FindNotRewritten(fs, [], name);
      NotRenamed(hs, name);
    }
  }

  lemma {:induction false} NotRenamed(hs: seq<Field>, name: string)
    requires KebabFields(hs) && (Camel(Uncamel(name)) != name || !HasKey(hs, Uncamel(name)))
    ensures Find(RenamedFields(hs), name) == Undefined
    decreases hs
  {
    if hs != [] {
      CamelHasInverse(hs[0].key);
      NotRenamed(hs[1..], name);
    }
  }

  /** Raw objects that agree off `transactions` are renamed alike off `transactions`. */
  lemma RenamedAgree(n: Names, raw: seq<Field>, hs: seq<Field>, name: string)
    requires Fit(n) && KebabFields(raw) && KebabFields(hs) && name != n.transactions
    requires forall k :: k != n.transactions ==> Find(hs, k) == Find(raw, k)
    ensures Find(RenamedFields(hs), name) == Find(RenamedFields(raw), name)
  {
    var key := Uncamel(name);
    if Camel(key) == name && (HasKey(hs, key) || HasKey(raw, key)) {
      assert Field(key, Find(hs, key)) in hs || Field(key, Find(raw, key)) in raw;
      FindRenamed(hs, key);
      FindRenamed(raw, key);
    } else {
      NotRenamed(hs, name);
      NotRenamed(raw, name);
    }
  }

  lemma PropertiesAgree(n: Names, raw: seq<Field>, hs: seq<Field>, txs: seq<Js>, name: string)
    requires Fit(n) && KebabFields(raw) && KebabFields(hs) && name != Camel(n.toJson)
    requires forall k :: k != n.transactions ==> Find(hs, k) == Find(raw, k)
    requires NormaliseFields(BlockFields(n, hs, Arr([])), []).Ok?
    ensures var fields := NormaliseFields(BlockFields(n, hs, Arr([])), []).value;
      Find(Completed(n, Put(fields, n.transactions, Arr(RenamedAll(txs))), txs), name)
      == Find(Completed(n, RenamedFields(raw), txs), name)
  {
    var fields := NormaliseFields(BlockFields(n, hs, Arr([])), []).value;
    if name != n.byGroup && name != n.toJson && name != n.transactions {
      HeaderRewritten(n, hs, name);
      RenamedAgree(n, raw, hs, name);
    }
    CompletedProperty(n, Put(fields, n.transactions, Arr(RenamedAll(txs))), RenamedFields(raw), txs, name);
  }

  lemma PaginatedFields(n: Names, hs: seq<Field>, txs: seq<Js>) returns (fields: seq<Field>, fs: seq<Field>)
    requires Fit(n) && KebabFields(hs) && Find(hs, n.transactions) == Arr([])
    requires forall tx :: tx in txs ==> KebabTree(tx)
    ensures NormaliseFields(BlockFields(n, hs, Arr([])), []) == Ok(fields)
    ensures fs == Completed(n, Put(fields, n.transactions, Arr(RenamedAll(txs))), txs)
    ensures CombinePaginateBlock(n, Obj(hs), txs) == Ok(Obj(fs))
  {
    PaginatedIs(n, hs, txs);
    fields := NormaliseFields(BlockFields(n, hs, Arr([])), []).value;
    fs := Completed(n, Put(fields, n.transactions, Arr(RenamedAll(txs))), txs);
  }

  lemma DirectFields(n: Names, raw: seq<Field>, txs: seq<Js>) returns (fs: seq<Field>)
    requires Fit(n) && KebabFields(raw) && Find(raw, n.transactions) == Arr(txs)
    ensures forall tx :: tx in txs ==> KebabTree(tx)
    ensures fs == Completed(n, RenamedFields(raw), txs)
    ensures DirectBlock(n, Obj(raw)) == Ok(Obj(fs))
  {
    DirectIs(n, raw, txs);
    fs := Completed(n, RenamedFields(raw), txs);
  }

  /**
   * The paginated block and the direct block agree on every property, and so on every transaction
   * and every group, but for the paginated block's extra property `toJson`.
   */
  lemma PathsAgree(n: Names, raw: seq<Field>, hs: seq<Field>, txs: seq<Js>)
    returns (direct: seq<Field>, paginated: seq<Field>)
    requires Fit(n) && KebabFields(raw) && KebabFields(hs)
    requires Find(raw, n.transactions) == Arr(txs) && Find(hs, n.transactions) == Arr([])
    requires forall k :: k != n.transactions ==> Find(hs, k) == Find(raw, k)
    ensures DirectBlock(n, Obj(raw)) == Ok(Obj(direct))
    ensures CombinePaginateBlock(n, Obj(hs), txs) == Ok(Obj(paginated))
    ensures forall name :: name != Camel(n.toJson) ==> Find(paginated, name) == Find(direct, name)
    ensures forall groupId ::
      TransactionsByGroup(n, Obj(paginated), groupId) == TransactionsByGroup(n, Obj(direct), groupId)
  {
    direct := DirectFields(n, raw, txs);
    var fields;
    fields, paginated := PaginatedFields(n, hs, txs);
    CompletedAgree(n, raw, hs, txs, fields, direct, paginated);
    GroupsFollow(n, direct, paginated);
  }

  lemma GroupsFollow(n: Names, direct: seq<Field>, paginated: seq<Field>)
    requires Find(paginated, n.byGroup) == Find(direct, n.byGroup)
    ensures forall groupId ::
      TransactionsByGroup(n, Obj(paginated), groupId) == TransactionsByGroup(n, Obj(direct), groupId)
  {
  }

  lemma CompletedAgree(n: Names, raw: seq<Field>, hs: seq<Field>, txs: seq<Js>,
    fields: seq<Field>, direct: seq<Field>, paginated: seq<Field>)
    requires Fit(n) && KebabFields(raw) && KebabFields(hs)
    requires forall k :: k != n.transactions ==> Find(hs, k) == Find(raw, k)
    requires NormaliseFields(BlockFields(n, hs, Arr([])), []) == Ok(fields)
    requires paginated == Completed(n, Put(fields, n.transactions, Arr(RenamedAll(txs))), txs)
    requires direct == Completed(n, RenamedFields(raw), txs)
    ensures forall name :: name != Camel(n.toJson) ==> Find(paginated, name) == Find(direct, name)
  {
    forall name | name != Camel(n.toJson) ensures Find(paginated, name) == Find(direct, name) {
      PropertiesAgree(n, raw, hs, txs, name);
    }
  }

  /** A group is what filtering the block's own transactions gives. */
  lemma GroupIsFiltered(n: Names, raw: seq<Field>, txs: seq<Js>, groupId: string)
    requires Fit(n) && KebabFields(raw) && Find(raw, n.transactions) == Arr(txs)
    ensures DirectBlock(n, Obj(raw)).Ok?
    ensures var direct := DirectBlock(n, Obj(raw)).value;
      && Lookup(direct, n.transactions).Arr?
      && TransactionsByGroup(n, direct, groupId) == InGroup(Lookup(direct, n.transactions).elems, groupId)
  {
    var fs := DirectFields(n, raw, txs);
  }

  lemma HeaderToJson(n: Names, hs: seq<Field>)
    requires Fit(n) && KebabFields(hs) && !HasKey(hs, Uncamel(Camel(n.toJson)))
    requires NormaliseFields(BlockFields(n, hs, Arr([])), []).Ok?
    ensures Find(NormaliseFields(BlockFields(n, hs, Arr([])), []).value, Camel(n.toJson))
         == JsonFn([n.byGroup, n.toJson])
  {
    var fs := BlockFields(n, hs, Arr([]));
    HeaderMembers(n, hs, Arr([]));
    forall f | f in fs && Camel(f.key) == Camel(n.toJson) ensures f.key == n.toJson {
      if f in hs {
        CamelHasInverse(f.key);
        MemberHasKey(hs, f);
      }
    }
    FindRewritten(fs, [], Camel(n.toJson), n.toJson);
  }

  /** The extra property: the header's `toJSON`, renamed by the second normalisation. */
  lemma PaginatedHasToJson(n: Names, hs: seq<Field>, txs: seq<Js>)
    requires Fit(n) && KebabFields(hs) && Find(hs, n.transactions) == Arr([])
    requires forall tx :: tx in txs ==> KebabTree(tx)
    requires !HasKey(hs, Uncamel(Camel(n.toJson)))
    ensures CombinePaginateBlock(n, Obj(hs), txs).Ok?
    ensures Lookup(CombinePaginateBlock(n, Obj(hs), txs).value, Camel(n.toJson)) == JsonFn([n.byGroup, n.toJson])
  {
    PaginatedIs(n, hs, txs);
    HeaderToJson(n, hs);
  }

  /** A header on its own is never normalised, so a camel-cased name like `previousBlockHash` finds nothing in it. */
  lemma HeaderLosesParentHash(n: Names, hs: seq<Field>, key: string, i: nat)
    requires Fit(n) && KebabFields(hs) && HeaderOnly(n, Obj(hs)).Ok?
    requires i < |key| && KindOf(key[i]) == Upper && key != n.byGroup && key != n.toJson
    ensures Lookup(HeaderOnly(n, Obj(hs)).value, key) == Undefined
  {
    NoCapitals(key, i);
    if HasKey(hs, key) {
      assert Field(key, Find(hs, key)) in hs;
    }
  }

  // ----- `toJSON` undoes the construction -----

  /** lodash `omit`. */
  function Omit(fs: seq<Field>, keys: set<string>): seq<Field> {
    if fs == [] then []
    else if fs[0].key in keys then Omit(fs[1..], keys)
    else [fs[0]] + Omit(fs[1..], keys)
  }

  lemma {:induction false} OmitPut(fs: seq<Field>, key: string, val: Js, keys: set<string>)
    requires key in keys
    ensures Omit(Put(fs, key, val), keys) == Omit(fs, keys)
  {
    if fs != [] && fs[0].key != key {
      OmitPut(fs[1..], key, val, keys);
      assert Put(fs, key, val)[1..] == Put(fs[1..], key, val);
    }
  }

  lemma {:induction false} OmitPutKept(fs: seq<Field>, key: string, val: Js, keys: set<string>)
    requires key !in keys
    ensures Omit(Put(fs, key, val), keys) == Put(Omit(fs, keys), key, val)
  {
    var put := Put(fs, key, val);
    if fs == [] {
      assert put[1..] == [];
    } else if fs[0].key == key {
      assert put[1..] == fs[1..];
      assert Omit(fs, keys)[1..] == Omit(fs[1..], keys);
    } else {
      OmitPutKept(fs[1..], key, val, keys);
      assert put[1..] == Put(fs[1..], key, val);
      if fs[0].key !in keys {
        assert Omit(fs, keys)[1..] == Omit(fs[1..], keys);
      }
    }
  }

  lemma {:induction false} OmitNothing(fs: seq<Field>, keys: set<string>)
    requires forall k :: k in keys ==> !HasKey(fs, k)
    ensures Omit(fs, keys) == fs
  {
    if fs != [] {
      OmitNothing(fs[1..], keys);
      assert fs == [fs[0]] + fs[1..];
    }
  }

  /** Written out, a constructed transaction is the transaction it was made from, free of cycles. */
  lemma TransactionWritesBack(n: Names, fs: seq<Field>)
    requires !HasKey(fs, n.block) && !HasKey(fs, n.toJson)
    ensures Omit(Spread(WithBlock(n, Obj(fs))), {n.block, n.toJson}) == fs
  {
    OmitPut(Put(fs, n.block, Enclosing), n.toJson, JsonFn([n.block, n.toJson]), {n.block, n.toJson});
    OmitPut(fs, n.block, Enclosing, {n.block, n.toJson});
    OmitNothing(fs, {n.block, n.toJson});
  }

  /** Written out, a constructed block is the block it was made from with its transactions mapped. */
  lemma BlockWritesBack(n: Names, fs: seq<Field>, mapped: Js)
    requires Fit(n) && !HasKey(fs, n.byGroup) && !HasKey(fs, n.toJson)
    ensures Omit(BlockFields(n, fs, mapped), {n.byGroup, n.toJson}) == Put(fs, n.transactions, mapped)
  {
    var hidden := {n.byGroup, n.toJson};
    var one := Put(fs, n.byGroup, GroupFn(Captured(mapped)));
    OmitPutKept(Put(one, n.toJson, JsonFn([n.byGroup, n.toJson])), n.transactions, mapped, hidden);
    OmitPut(one, n.toJson, JsonFn([n.byGroup, n.toJson]), hidden);
    OmitPut(fs, n.byGroup, GroupFn(Captured(mapped)), hidden);
    OmitNothing(fs, hidden);
  }

  // ----- What becomes of a block's transactions -----

  /** The element is the renamed transaction, but for a reference to its block and a `toJSON` of its own. */
  predicate Carries(n: Names, elem: Js, tx: Js) {
    && elem.Obj? && tx.Obj?
    && Omit(elem.fields, {n.block, n.toJson}) == Omit(RenamedFields(tx.fields), {n.block, n.toJson})
    && Find(elem.fields, n.block) == Enclosing
    && Find(elem.fields, n.toJson) == JsonFn([n.block, n.toJson])
  }

  predicate CarriesAll(n: Names, block: Js, txs: seq<Js>) {
    && Lookup(block, n.transactions).Arr?
    && var elems := Lookup(block, n.transactions).elems;
      |elems| == |txs| && forall i :: 0 <= i < |txs| ==> Carries(n, elems[i], txs[i])
  }

  lemma WithBlockCarries(n: Names, tx: Js)
    requires Fit(n) && tx.Obj?
    ensures Carries(n, WithBlock(n, Renamed(tx)), tx)
  {
    var fs, hidden := RenamedFields(tx.fields), {n.block, n.toJson};
    OmitPut(Put(fs, n.block, Enclosing), n.toJson, JsonFn([n.block, n.toJson]), hidden);
    OmitPut(fs, n.block, Enclosing, hidden);
  }

  lemma {:induction false} RenamedAllAt(txs: seq<Js>, i: nat)
    requires i < |txs|
    ensures RenamedAll(txs)[i] == Renamed(txs[i])
  {
    if i > 0 {
      RenamedAllAt(txs[1..], i - 1);
    }
  }

  lemma CompletedCarries(n: Names, fs: seq<Field>, txs: seq<Js>)
    requires Fit(n) && forall tx :: tx in txs ==> tx.Obj?
    ensures CarriesAll(n, Obj(Completed(n, fs, txs)), txs)
  {
    forall i | 0 <= i < |txs| ensures Carries(n, WithBlocks(n, RenamedAll(txs))[i], txs[i]) {
      assert txs[i] in txs;
      RenamedAllAt(txs, i);
      WithBlockCarries(n, txs[i]);
    }
  }

  /** On either path a block keeps all of its transactions, in order, each with its own properties. */
  lemma TransactionsAreKept(n: Names, raw: seq<Field>, hs: seq<Field>, txs: seq<Js>)
    requires Fit(n) && forall tx :: tx in txs ==> tx.Obj? && KebabTree(tx)
    requires KebabFields(raw) && Find(raw, n.transactions) == Arr(txs)
    requires KebabFields(hs) && Find(hs, n.transactions) == Arr([])
    ensures DirectBlock(n, Obj(raw)).Ok? && CarriesAll(n, DirectBlock(n, Obj(raw)).value, txs)
    ensures CombinePaginateBlock(n, Obj(hs), txs).Ok? && CarriesAll(n, CombinePaginateBlock(n, Obj(hs), txs).value, txs)
  {
    DirectIs(n, raw, txs);
    CompletedCarries(n, RenamedFields(raw), txs);
    var fields, paginated := PaginatedFields(n, hs, txs);
    CompletedCarries(n, Put(fields, n.transactions, Arr(RenamedAll(txs))), txs);
  }

  /** The positions `at` of a list, in order. */
  predicate Picks<T(==)>(at: seq<nat>, from: seq<T>, picked: seq<T>) {
    && |at| == |picked|
    && (forall p :: 0 <= p < |at| ==> at[p] < |from| && picked[p] == from[at[p]])
    && (forall p, q :: 0 <= p < q < |at| ==> at[p] < at[q])
  }

  predicate IsInGroup(tx: Js, groupId: string) {
    Lookup(tx, "group") == Str(groupId)
  }

  function Shifted(at: seq<nat>): (r: seq<nat>)
    ensures |r| == |at| && forall p :: 0 <= p < |at| ==> r[p] == at[p] + 1
  {
    seq(|at|, p requires 0 <= p < |at| => at[p] + 1)
  }

  lemma ShiftedMembers(at: seq<nat>)
    ensures forall i: nat :: i + 1 in Shifted(at) <==> i in at
    ensures 0 !in Shifted(at)
  {
    forall i: nat | i in at ensures i + 1 in Shifted(at) {
      var p :| 0 <= p < |at| && at[p] == i;
      assert Shifted(at)[p] == i + 1;
    }
  }

  lemma PicksLater(tx: Js, at: seq<nat>, from: seq<Js>, picked: seq<Js>)
    requires Picks(at, from, picked)
    ensures Picks(Shifted(at), [tx] + from, picked)
    ensures Picks([0] + Shifted(at), [tx] + from, [tx] + picked)
  {
  }

  lemma {:induction false} InGroupPicks(txs: seq<Js>, groupId: string) returns (at: seq<nat>)
    ensures Picks(at, txs, InGroup(txs, groupId))
    ensures forall i :: 0 <= i < |txs| ==> (i in at <==> IsInGroup(txs[i], groupId))
  {
    at := [];
    if txs != [] {
      var later := InGroupPicks(txs[1..], groupId);
      PicksLater(txs[0], later, txs[1..], InGroup(txs[1..], groupId));
      ShiftedMembers(later);
      assert txs == [txs[0]] + txs[1..];
      at := if IsInGroup(txs[0], groupId) then [0] + Shifted(later) else Shifted(later);
      forall i | 0 <= i < |txs| ensures i in at <==> IsInGroup(txs[i], groupId) {
        if i > 0 {
          assert txs[i] == txs[1..][i - 1] && (i in Shifted(later) <==> i - 1 in later);
        }
      }
    }
  }

  /** A group lookup gives just the transactions of the group, in the block's order. */
  lemma GroupIsPicked(n: Names, raw: seq<Field>, txs: seq<Js>, groupId: string) returns (elems: seq<Js>, at: seq<nat>)
    requires Fit(n) && KebabFields(raw) && Find(raw, n.transactions) == Arr(txs)
    ensures DirectBlock(n, Obj(raw)).Ok? && Lookup(DirectBlock(n, Obj(raw)).value, n.transactions) == Arr(elems)
    ensures Picks(at, elems, TransactionsByGroup(n, DirectBlock(n, Obj(raw)).value, groupId))
    ensures forall i :: 0 <= i < |elems| ==> (i in at <==> IsInGroup(elems[i], groupId))
  {
    GroupIsFiltered(n, raw, txs, groupId);
    elems := Lookup(DirectBlock(n, Obj(raw)).value, n.transactions).elems;
    at := InGroupPicks(elems, groupId);
  }

  /** A block without transactions keeps none and has no groups; transactions that are no list make it fail. */
  lemma BlockWithoutList(n: Names, raw: seq<Field>, groupId: string)
    requires Fit(n) && KebabFields(raw) && !Find(raw, n.transactions).Arr?
    ensures Find(raw, n.transactions) == Undefined || Find(raw, n.transactions) == Null ==>
      && DirectBlock(n, Obj(raw)).Ok?
      && Lookup(DirectBlock(n, Obj(raw)).value, n.transactions) == Undefined
      && TransactionsByGroup(n, DirectBlock(n, Obj(raw)).value, groupId) == []
    ensures Find(raw, n.transactions) != Undefined && Find(raw, n.transactions) != Null ==>
      DirectBlock(n, Obj(raw)) == Err(TypeError)
  {
    RewriteRenames(Obj(raw));
    FindRenamed(raw, n.transactions);
    if HasKey(raw, n.transactions) {
      assert Field(n.transactions, Find(raw, n.transactions)) in raw;
    }
  }
}
